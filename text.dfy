/**
 * The Python string operations the interpreter relies on, stated over
 * `string` (a sequence of Unicode scalar values, as a Python `str` is).
 */
module Text {

  /** Python's `str.isspace()` on one character: the set that `strip()` and `split()` cut at. */
  predicate IsSpace(c: char)
  {
    || c == ' '
    || ('\t' <= c <= '\r')
    || ('\U{1c}' <= c <= '\U{1f}')
    || c == '\U{85}' || c == '\U{a0}' || c == '\U{1680}'
    || ('\U{2000}' <= c <= '\U{200a}')
    || c == '\U{2028}' || c == '\U{2029}' || c == '\U{202f}' || c == '\U{205f}' || c == '\U{3000}'
  }

  /** `w` holds no whitespace character. */
  predicate NoSpace(w: string)
  {
    forall i :: 0 <= i < |w| ==> !IsSpace(w[i])
  }

  /** Every character of `w` is whitespace. */
  predicate AllSpace(w: string)
  {
    forall i :: 0 <= i < |w| ==> IsSpace(w[i])
  }

  /** `s.startswith(prefix)`. */
  predicate StartsWith(s: string, prefix: string)
  {
    |prefix| <= |s| && s[..|prefix|] == prefix
  }

  /** `p in s` for strings: `p` occurs in `s` as a contiguous run. */
  predicate Contains(s: string, p: string)
    decreases |s|
  {
    StartsWith(s, p) || (|s| > 0 && Contains(s[1..], p))
  }

  /** An occurrence at any position makes `Contains` true. */
  lemma {:induction false} ContainsAt(s: string, p: string, i: nat)
    requires i + |p| <= |s| && s[i..i + |p|] == p
    ensures Contains(s, p)
    decreases i
  {
    if i > 0 {
      assert s[1..][i - 1..i - 1 + |p|] == s[i..i + |p|];
      ContainsAt(s[1..], p, i - 1);
    }
  }

  /** An occurrence in `a` is still one once text is appended. */
  lemma {:induction false} ContainsAppend(a: string, b: string, p: string)
    ensures Contains(a, p) ==> Contains(a + b, p)
    decreases |a|
  {
    if StartsWith(a, p) {
      assert (a + b)[..|p|] == a[..|p|];
    } else if |a| > 0 {
      ContainsAppend(a[1..], b, p);
      assert (a + b)[1..] == a[1..] + b;
    }
  }

  /** An occurrence in `b` is still one once text is put in front of it. */
  lemma {:induction false} ContainsPrepend(a: string, b: string, p: string)
    ensures Contains(b, p) ==> Contains(a + b, p)
    decreases |a|
  {
    if |a| > 0 {
      ContainsPrepend(a[1..], b, p);
      assert (a + b)[1..] == a[1..] + b;
    } else {
      assert a + b == b;
    }
  }

  /** `s.lstrip()`: the suffix left after dropping the leading whitespace. */
  function LStrip(s: string): (r: string)
    ensures |r| <= |s| && r == s[|s| - |r|..]
    ensures r == [] || !IsSpace(r[0])
    decreases |s|
  {
    if |s| > 0 && IsSpace(s[0]) then LStrip(s[1..]) else s
  }

  /** `s.strip()`: drop leading and trailing whitespace. */
  function Strip(s: string): string
    decreases |s|
  {
    if |s| > 0 && IsSpace(s[0]) then Strip(s[1..])
    else if |s| > 0 && IsSpace(s[|s| - 1]) then Strip(s[..|s| - 1])
    else s
  }

  /** The stripped string has no whitespace at either end. */
  lemma {:induction false} StripTrims(s: string)
    ensures Strip(s) == [] || (!IsSpace(Strip(s)[0]) && !IsSpace(Strip(s)[|Strip(s)| - 1]))
    decreases |s|
  {
    if |s| > 0 && IsSpace(s[0]) {
      StripTrims(s[1..]);
    } else if |s| > 0 && IsSpace(s[|s| - 1]) {
      StripTrims(s[..|s| - 1]);
    }
  }

  /** Slicing past a prefix's start slices the prefix. */
  lemma SliceOfAppend<T>(t: seq<T>, v: seq<T>, k: nat)
    requires k <= |t|
    ensures (t + v)[k..] == t[k..] + v
  {
  }

  /** A slice of `s` from position 1 on is a slice of `s[1..]`. */
  lemma SliceOfTail<T>(s: seq<T>, i: nat, j: nat)
    requires 1 <= i <= j <= |s|
    ensures s[i..j] == s[1..][i - 1..j - 1] && s[i..] == s[1..][i - 1..]
    ensures s[..i] == [s[0]] + s[1..][..i - 1]
  {
    var t := s[1..];
    assert forall k :: 0 <= k < j - i ==> s[i..j][k] == t[i - 1..j - 1][k];
    assert forall k :: 0 <= k < |s| - i ==> s[i..][k] == t[i - 1..][k];
    assert forall k :: 0 <= k < i ==> s[..i][k] == ([s[0]] + t[..i - 1])[k];
  }

  /** Slices of `s` that stop before its last element are slices of `s` without it. */
  lemma SliceOfFront<T>(s: seq<T>, i: nat, j: nat)
    requires i <= j < |s|
    ensures s[i..j] == s[..|s| - 1][i..j] && s[..i] == s[..|s| - 1][..i]
    ensures s[j..] == s[..|s| - 1][j..] + [s[|s| - 1]]
  {
  }

  /** Whitespace before and whitespace after make whitespace. */
  lemma AllSpaceConcat(x: string, y: string)
    requires AllSpace(x) && AllSpace(y)
    ensures AllSpace(x + y)
  {
    forall i | 0 <= i < |x + y|
      ensures IsSpace((x + y)[i])
    {
      if i >= |x| {
        assert (x + y)[i] == y[i - |x|];
      }
    }
  }

  /**
   * `Strip(s)` is the part of `s` that starts where `lstrip()` starts, with
   * nothing but whitespace before and after it.
   */
  predicate StripSpan(s: string)
  {
    var a := |s| - |LStrip(s)|;
    a + |Strip(s)| <= |s| && s[a..a + |Strip(s)|] == Strip(s) &&
    AllSpace(s[..a]) && AllSpace(s[a + |Strip(s)|..])
  }

  lemma StripSpanLead(s: string)
    requires |s| > 0 && IsSpace(s[0]) && StripSpan(s[1..])
    ensures StripSpan(s)
  {
    var t := s[1..];
    var n := |Strip(s)|;
    assert Strip(s) == Strip(t) && LStrip(s) == LStrip(t);
    var a := |s| - |LStrip(s)|;
    assert a == |t| - |LStrip(t)| + 1;
    SliceOfTail(s, a, a + n);
    assert AllSpace([s[0]]);
    AllSpaceConcat([s[0]], t[..a - 1]);
  }

  lemma StripSpanTrail(s: string)
    requires |s| > 0 && !IsSpace(s[0]) && IsSpace(s[|s| - 1]) && StripSpan(s[..|s| - 1])
    ensures StripSpan(s)
  {
    var t := s[..|s| - 1];
    var n := |Strip(s)|;
    assert Strip(s) == Strip(t) && LStrip(s) == s;
    assert t[0] == s[0];
    assert |t| - |LStrip(t)| == 0;
    SliceOfFront(s, 0, n);
    assert AllSpace([s[|s| - 1]]);
    AllSpaceConcat(t[n..], [s[|s| - 1]]);
  }

  lemma StripSpanKeep(s: string)
    requires Strip(s) == s && LStrip(s) == s
    ensures StripSpan(s)
  {
    assert s[..0] == [] && s[|s|..] == [];
  }

  /** `strip()` drops whitespace only, at both ends, and keeps the rest in one piece. */
  lemma {:induction false} StripDropsSpace(s: string)
    ensures StripSpan(s)
    decreases |s|
  {
    if |s| > 0 && IsSpace(s[0]) {
      StripDropsSpace(s[1..]);
      StripSpanLead(s);
    } else if |s| > 0 && IsSpace(s[|s| - 1]) {
      StripDropsSpace(s[..|s| - 1]);
      StripSpanTrail(s);
    } else {
      assert Strip(s) == s && LStrip(s) == s;
      StripSpanKeep(s);
    }
  }

  /**
   * When `s` starts with a non-space character, stripping keeps every
   * character up to the non-space character at position `k`.
   */
  lemma {:induction false} StripKeepsLead(s: string, k: nat)
    requires k < |s| && !IsSpace(s[0]) && !IsSpace(s[k])
    ensures k < |Strip(s)| && Strip(s)[..k + 1] == s[..k + 1]
    decreases |s|
  {
    if IsSpace(s[|s| - 1]) {
      var t := s[..|s| - 1];
      StripKeepsLead(t, k);
      assert t[..k + 1] == s[..k + 1];
    }
  }

  /**
   * `s.replace(marker, '')`: every occurrence of `marker` found by a
   * left-to-right scan is deleted, without rescanning what is left.
   */
  function RemoveAll(s: string, marker: string): (r: string)
    requires marker != ""
    ensures |r| <= |s|
    decreases |s|
  {
    if |s| < |marker| then s
    else if s[..|marker|] == marker then RemoveAll(s[|marker|..], marker)
    else [s[0]] + RemoveAll(s[1..], marker)
  }

  /** `sep.join(pieces)`. */
  function Join(pieces: seq<string>, sep: string): string
  {
    if |pieces| == 0 then ""
    else if |pieces| == 1 then pieces[0]
    else pieces[0] + sep + Join(pieces[1..], sep)
  }

  /** `s.split(sep)` for a one-character separator. */
  function Split(s: string, sep: char): (pieces: seq<string>)
    ensures |pieces| >= 1
    decreases |s|
  {
    if |s| == 0 then [""]
    else
      var rest := Split(s[1..], sep);
      if s[0] == sep then [""] + rest else [[s[0]] + rest[0]] + rest[1..]
  }

  /** No piece of `s.split(sep)` holds the separator. */
  lemma {:induction false} SplitPieces(s: string, sep: char)
    ensures forall k :: 0 <= k < |Split(s, sep)| ==> sep !in Split(s, sep)[k]
    decreases |s|
  {
    if |s| > 0 {
      var rest := Split(s[1..], sep);
      SplitPieces(s[1..], sep);
      var pieces := Split(s, sep);
      forall k | 0 <= k < |pieces| ensures sep !in pieces[k] {
        if s[0] == sep {
          if k > 0 { assert pieces[k] == rest[k - 1]; }
        } else if k > 0 {
          assert pieces[k] == rest[k];
        } else {
          assert pieces[0] == [s[0]] + rest[0];
        }
      }
    }
  }

  /** Joining the pieces of `s.split(sep)` with the separator gives `s` back. */
  lemma {:induction false} SplitJoin(s: string, sep: char)
    ensures Join(Split(s, sep), [sep]) == s
    decreases |s|
  {
    if |s| > 0 {
      SplitJoin(s[1..], sep);
      if s[0] == sep {
        JoinAfterSep(s, sep);
      } else {
        JoinAfterChar(s, sep);
      }
    }
  }

  lemma JoinAfterSep(s: string, sep: char)
    requires |s| > 0 && s[0] == sep
    requires Join(Split(s[1..], sep), [sep]) == s[1..]
    ensures Join(Split(s, sep), [sep]) == s
  {
    var rest := Split(s[1..], sep);
    var pieces := Split(s, sep);
    assert pieces == [""] + rest;
    assert pieces[1..] == rest;
    assert Join(pieces, [sep]) == "" + [sep] + Join(rest, [sep]);
    assert [s[0]] + s[1..] == s;
  }

  lemma JoinAfterChar(s: string, sep: char)
    requires |s| > 0 && s[0] != sep
    requires Join(Split(s[1..], sep), [sep]) == s[1..]
    ensures Join(Split(s, sep), [sep]) == s
  {
    var rest := Split(s[1..], sep);
    var head := [s[0]];
    assert Split(s, sep) == [head + rest[0]] + rest[1..];
    calc {
      Join(Split(s, sep), [sep]);
      Join([head + rest[0]] + rest[1..], [sep]);
    == { JoinFirstPiece(head, rest, [sep]); }
      head + Join(rest, [sep]);
      head + s[1..];
    }
    assert head + s[1..] == s;
  }

  /** Text put in front of the first piece comes first in the joined string. */
  lemma JoinFirstPiece(x: string, pieces: seq<string>, sep: string)
    requires |pieces| >= 1
    ensures Join([x + pieces[0]] + pieces[1..], sep) == x + Join(pieces, sep)
  {
    var joined := [x + pieces[0]] + pieces[1..];
    assert joined[0] == x + pieces[0] && joined[1..] == pieces[1..];
    if |pieces| > 1 {
      AppendAssoc(x, pieces[0], sep + Join(pieces[1..], sep));
    }
  }

  /** The longest prefix of `s` without whitespace. */
  function Word(s: string): (w: string)
    ensures |w| <= |s| && w == s[..|w|]
    ensures NoSpace(w)
    ensures |w| == |s| || IsSpace(s[|w|])
    decreases |s|
  {
    if |s| == 0 || IsSpace(s[0]) then ""
    else
      var w := [s[0]] + Word(s[1..]);
      assert s == [s[0]] + s[1..];
      w
  }

  /** `s.split()` with no argument: the maximal runs of non-whitespace characters. */
  function SplitWhitespace(s: string): seq<string>
    decreases |s|
  {
    var t := LStrip(s);
    if t == "" then [] else var w := Word(t); [w] + SplitWhitespace(t[|w|..])
  }

  /** Leading whitespace is dropped up to the first other character, wherever the text continues. */
  lemma {:induction false} LStripAppend(p: string, q: string)
    ensures LStrip(p) == "" ==> LStrip(p + q) == LStrip(q)
    ensures LStrip(p) != "" ==> LStrip(p + q) == LStrip(p) + q
    decreases |p|
  {
    if |p| == 0 {
      assert p + q == q;
    } else {
      assert (p + q)[0] == p[0] && (p + q)[1..] == p[1..] + q;
      if IsSpace(p[0]) {
        LStripAppend(p[1..], q);
      }
    }
  }

  /** The first word ends where it did once more text follows a whitespace character or the word's own end. */
  lemma {:induction false} WordAppend(p: string, q: string)
    requires |Word(p)| < |p| || (|q| > 0 && IsSpace(q[0]))
    ensures Word(p + q) == Word(p)
    decreases |p|
  {
    if |p| == 0 {
      assert p + q == q;
    } else {
      assert (p + q)[0] == p[0] && (p + q)[1..] == p[1..] + q;
      if !IsSpace(p[0]) {
        WordAppend(p[1..], q);
      }
    }
  }

  /** `w.split() == [w]` for a non-empty word without whitespace. */
  lemma SplitWhitespaceOfWord(w: string)
    requires w != "" && NoSpace(w)
    ensures SplitWhitespace(w) == [w]
  {
    assert LStrip(w) == w;
    WordOfNoSpace(w);
    assert w[|w|..] == "";
  }

  lemma {:induction false} WordOfNoSpace(w: string)
    requires NoSpace(w)
    ensures Word(w) == w
    decreases |w|
  {
    if |w| > 0 {
      WordOfNoSpace(w[1..]);
      assert [w[0]] + w[1..] == w;
    }
  }

  /** A string of whitespace only splits into no words. */
  lemma {:induction false} SplitWhitespaceOfSpaces(s: string)
    requires AllSpace(s)
    ensures SplitWhitespace(s) == []
    decreases |s|
  {
    if |s| > 0 {
      SplitWhitespaceOfSpaces(s[1..]);
      assert LStrip(s) == LStrip(s[1..]);
    }
  }

  lemma AppendAssoc<T>(x: seq<T>, y: seq<T>, z: seq<T>)
    ensures x + y + z == x + (y + z)
  {
  }

  lemma ConsAppend<T>(x: T, l: seq<T>, r: seq<T>)
    ensures [x] + (l + r) == ([x] + l) + r
  {
  }

  /** `split()` sees only what follows the leading whitespace. */
  lemma SplitWhitespaceOfLStrip(p: string, q: string)
    requires LStrip(p) == LStrip(q)
    ensures SplitWhitespace(p) == SplitWhitespace(q)
  {
  }

  /** The first word of `split()`, then the words of what follows it. */
  lemma SplitWhitespaceUnfold(s: string)
    requires LStrip(s) != ""
    ensures SplitWhitespace(s) == [Word(LStrip(s))] + SplitWhitespace(LStrip(s)[|Word(LStrip(s))|..])
  {
  }

  /** Cutting at whitespace after leading whitespace only: the words are those after the cut. */
  lemma AtSpaceBlank(a: string, c: char, b: string)
    requires IsSpace(c) && LStrip(a) == ""
    ensures SplitWhitespace(a + [c] + b) == SplitWhitespace(a) + SplitWhitespace(b)
  {
    var s := a + [c] + b;
    AppendAssoc(a, [c], b);
    LStripAppend(a, [c] + b);
    assert SplitWhitespace(a) == [];
    assert ([c] + b)[1..] == b;
    assert LStrip([c] + b) == LStrip(b);
    SplitWhitespaceOfLStrip(s, b);
  }

  /** Cutting at whitespace after a first word: that word, then the cut applied to the rest. */
  lemma AtSpaceWord(a: string, c: char, b: string)
    requires IsSpace(c) && LStrip(a) != ""
    requires var t := LStrip(a); var rest := t[|Word(t)|..];
      SplitWhitespace(rest + [c] + b) == SplitWhitespace(rest) + SplitWhitespace(b)
    ensures SplitWhitespace(a + [c] + b) == SplitWhitespace(a) + SplitWhitespace(b)
  {
    var s := a + [c] + b;
    var t := LStrip(a);
    AppendAssoc(a, [c], b);
    LStripAppend(a, [c] + b);
    var w := Word(t);
    var u := LStrip(s);
    WordAppend(t, [c] + b);
    var rest := t[|w|..];
    SliceOfAppend(t, [c] + b, |w|);
    AppendAssoc(rest, [c], b);
    SplitWhitespaceUnfold(s);
    SplitWhitespaceUnfold(a);
    ConsAppend(w, SplitWhitespace(rest), SplitWhitespace(b));
  }

  /**
   * `split()` cuts at every whitespace character: the words of `a + [c] + b`
   * for a whitespace `c` are those of `a` followed by those of `b`.
   */
  lemma {:induction false} SplitWhitespaceAtSpace(a: string, c: char, b: string)
    requires IsSpace(c)
    ensures SplitWhitespace(a + [c] + b) == SplitWhitespace(a) + SplitWhitespace(b)
    decreases |a|
  {
    var t := LStrip(a);
    if t == "" {
      AtSpaceBlank(a, c, b);
    } else {
      var rest := t[|Word(t)|..];
      SplitWhitespaceAtSpace(rest, c, b);
      AtSpaceWord(a, c, b);
    }
  }

  /** Every word of `s.split()` is non-empty and free of whitespace. */
  lemma {:induction false} SplitWhitespaceWords(s: string)
    ensures forall k :: 0 <= k < |SplitWhitespace(s)| ==> SplitWhitespace(s)[k] != "" && NoSpace(SplitWhitespace(s)[k])
    decreases |s|
  {
    var t := LStrip(s);
    if t != "" {
      var w := Word(t);
      var rest := SplitWhitespace(t[|w|..]);
      SplitWhitespaceWords(t[|w|..]);
      assert SplitWhitespace(s) == [w] + rest;
      forall k | 0 <= k < |SplitWhitespace(s)|
        ensures SplitWhitespace(s)[k] != "" && NoSpace(SplitWhitespace(s)[k])
      {
        if k > 0 {
          assert SplitWhitespace(s)[k] == rest[k - 1];
        }
      }
    }
  }

  /** The characters of `s` that are not whitespace, in order. */
  function RemoveSpaces(s: string): string
  {
    if |s| == 0 then ""
    else if IsSpace(s[0]) then RemoveSpaces(s[1..])
    else [s[0]] + RemoveSpaces(s[1..])
  }

  /** The concatenation of `words`. */
  function Concat(words: seq<string>): string
  {
    if |words| == 0 then "" else words[0] + Concat(words[1..])
  }

  lemma {:induction false} RemoveSpacesOfLeadingSpaces(s: string)
    ensures RemoveSpaces(LStrip(s)) == RemoveSpaces(s)
    decreases |s|
  {
    if |s| > 0 && IsSpace(s[0]) {
      RemoveSpacesOfLeadingSpaces(s[1..]);
    }
  }

  lemma {:induction false} RemoveSpacesOfWord(s: string, w: string)
    requires StartsWith(s, w) && NoSpace(w)
    ensures RemoveSpaces(s) == w + RemoveSpaces(s[|w|..])
    decreases |w|
  {
    if |w| > 0 {
      assert s[0] == w[0];
      assert StartsWith(s[1..], w[1..]);
      RemoveSpacesOfWord(s[1..], w[1..]);
      assert s[1..][|w| - 1..] == s[|w|..];
      assert [w[0]] + w[1..] == w;
    } else {
      assert s[0..] == s;
    }
  }

  /**
   * Splitting on whitespace loses exactly the whitespace: the words, put
   * back together, are the non-whitespace characters of `s` in order.
   */
  lemma {:induction false} SplitWhitespaceKeepsText(s: string)
    ensures Concat(SplitWhitespace(s)) == RemoveSpaces(s)
    decreases |s|
  {
    var t := LStrip(s);
    RemoveSpacesOfLeadingSpaces(s);
    if t != "" {
      var w := Word(t);
      SplitWhitespaceKeepsText(t[|w|..]);
      RemoveSpacesOfWord(t, w);
      assert SplitWhitespace(s) == [w] + SplitWhitespace(t[|w|..]);
      assert ([w] + SplitWhitespace(t[|w|..]))[1..] == SplitWhitespace(t[|w|..]);
    }
  }

  /** `c.lower()` as far as it can yield an ASCII character; any other character is kept. */
  function LowerChar(c: char): string
  {
    if 'A' <= c <= 'Z' then [(c as int - 'A' as int + 'a' as int) as char]
    else if c == '\U{212A}' then "k"         // KELVIN SIGN
    else if c == '\U{130}' then "i\U{307}"   // LATIN CAPITAL LETTER I WITH DOT ABOVE
    else [c]
  }

  /** `s.lower()`, character by character. */
  function Lower(s: string): string
  {
    if |s| == 0 then "" else LowerChar(s[0]) + Lower(s[1..])
  }

  /** Lowering distributes over concatenation. */
  lemma {:induction false} LowerConcat(a: string, b: string)
    ensures Lower(a + b) == Lower(a) + Lower(b)
    decreases |a|
  {
    if |a| == 0 {
      assert a + b == b;
    } else {
      var head := LowerChar(a[0]);
      assert (a + b)[0] == a[0] && (a + b)[1..] == a[1..] + b;
      calc {
        Lower(a + b);
        head + Lower(a[1..] + b);
      == { LowerConcat(a[1..], b); }
        head + (Lower(a[1..]) + Lower(b));
      == { AppendAssoc(head, Lower(a[1..]), Lower(b)); }
        head + Lower(a[1..]) + Lower(b);
      }
    }
  }

  /** A string without upper-case letters is its own lower-case form. */
  lemma {:induction false} LowerOfLowercase(s: string)
    requires forall i :: 0 <= i < |s| ==> !('A' <= s[i] <= 'Z') && s[i] != '\U{212A}' && s[i] != '\U{130}'
    ensures Lower(s) == s
    decreases |s|
  {
    if |s| > 0 {
      LowerOfLowercase(s[1..]);
      assert [s[0]] + s[1..] == s;
    }
  }

  /** Lowering a lowered character changes nothing. */
  lemma LowerCharIdempotent(c: char)
    ensures Lower(LowerChar(c)) == LowerChar(c)
  {
    var l := LowerChar(c);
    if c == '\U{130}' {
      assert l == ['i'] + ['\U{307}'];
      assert Lower(l) == LowerChar('i') + Lower(['\U{307}']);
    } else {
      assert |l| == 1 && Lower(l) == LowerChar(l[0]) + Lower(l[1..]);
    }
  }

  /** `s.lower().lower() == s.lower()`. */
  lemma {:induction false} LowerIdempotent(s: string)
    ensures Lower(Lower(s)) == Lower(s)
    decreases |s|
  {
    if |s| > 0 {
      LowerIdempotent(s[1..]);
      LowerConcat(LowerChar(s[0]), Lower(s[1..]));
      LowerCharIdempotent(s[0]);
    }
  }

  /** `s[-n:]`: the last `n` elements, or all of them when there are fewer. */
  function LastN<T>(s: seq<T>, n: nat): (r: seq<T>)
    ensures |r| == if |s| <= n then |s| else n
    ensures r == s[|s| - |r|..]
  {
    if |s| <= n then s else s[|s| - n..]
  }

  /** The last `n` elements do not depend on what comes before them. */
  lemma LastNOfAppend<T>(older: seq<T>, recent: seq<T>, n: nat)
    requires |recent| >= n
    ensures LastN(older + recent, n) == LastN(recent, n)
  {
    var all := older + recent;
    forall k | 0 <= k < n
      ensures LastN(all, n)[k] == LastN(recent, n)[k]
    {
      assert LastN(all, n)[k] == all[|all| - n + k];
      assert all[|all| - n + k] == recent[|recent| - n + k];
    }
  }

  /** Joining pieces of at most `m` characters each takes at most `m + |sep|` characters per piece. */
  lemma {:induction false} JoinBound(pieces: seq<string>, sep: string, m: nat)
    requires forall k :: 0 <= k < |pieces| ==> |pieces[k]| <= m
    ensures |Join(pieces, sep)| <= |pieces| * (m + |sep|)
    decreases |pieces|
  {
    if |pieces| > 1 {
      JoinBound(pieces[1..], sep, m);
    }
  }

  /** A join of pieces whose first piece is not empty starts with that piece's first character. */
  lemma JoinFirst(pieces: seq<string>, sep: string)
    requires |pieces| > 0 && |pieces[0]| > 0
    ensures |Join(pieces, sep)| > 0 && Join(pieces, sep)[0] == pieces[0][0]
  {
    if |pieces| > 1 {
      assert Join(pieces, sep) == pieces[0] + sep + Join(pieces[1..], sep);
    }
  }

  /** `s[:n]`. */
  function Take(s: string, n: nat): (r: string)
    ensures |r| <= n && StartsWith(s, r)
    ensures |s| <= n ==> r == s
  {
    if |s| <= n then s else s[..n]
  }

  /** `str(n)` for a natural number. */
  function NatToString(n: nat): (s: string)
    ensures |s| >= 1
    ensures forall i :: 0 <= i < |s| ==> '0' <= s[i] <= '9'
  {
    var digit := ('0' as int + n % 10) as char;
    if n < 10 then [digit] else NatToString(n / 10) + [digit]
  }
}
