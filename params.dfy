/**
 * Tool parameters: the `Dict[str, str]` that `_parse_parameters` fills from
 * a `PARAMETERS:` line (llm_interpreter.py:526-538).
 */
module Params {
  import opened Text
  import opened Wrappers

  /**
   * A Python dict of strings: entries in insertion order, one entry per key
   * as long as it is built with `Put`.
   */
  type Params = seq<(string, string)>

  predicate UniqueKeys(p: Params)
  {
    forall i, j :: 0 <= i < j < |p| ==> p[i].0 != p[j].0
  }

  /** The keys in iteration order (`list(p)`). */
  function Keys(p: Params): (ks: seq<string>)
    ensures |ks| == |p|
    ensures forall i :: 0 <= i < |p| ==> ks[i] == p[i].0
  {
    if |p| == 0 then [] else [p[0].0] + Keys(p[1..])
  }

  /** `p[key]` if `key in p`. */
  function Lookup(p: Params, key: string): (r: Option<string>)
    ensures r.None? <==> key !in Keys(p)
    ensures r.Some? ==> (key, r.value) in p
  {
    if |p| == 0 then None
    else if p[0].0 == key then Some(p[0].1)
    else Lookup(p[1..], key)
  }

  /** `p.get(key, default)`. */
  function Get(p: Params, key: string, default: string): string
  {
    match Lookup(p, key)
    case Some(v) => v
    case None => default
  }

  /**
   * `p[key] = value`: a new key goes at the end, an existing key keeps its
   * place and takes the new value.
   */
  function Put(p: Params, key: string, value: string): (r: Params)
    ensures |r| == if key in Keys(p) then |p| else |p| + 1
  {
    if |p| == 0 then [(key, value)]
    else if p[0].0 == key then [(key, value)] + p[1..]
    else [p[0]] + Put(p[1..], key, value)
  }

  /** After `p[key] = value`, `key` maps to `value` and every other key to what it did. */
  lemma {:induction false} PutLookup(p: Params, key: string, value: string, k: string)
    ensures Lookup(Put(p, key, value), k) == if k == key then Some(value) else Lookup(p, k)
    decreases |p|
  {
    if |p| > 0 && p[0].0 != key {
      PutLookup(p[1..], key, value, k);
      assert Put(p, key, value)[1..] == Put(p[1..], key, value);
    }
  }

  /** Assignment keeps the insertion order of the keys and appends a new key. */
  lemma {:induction false} PutKeyOrder(p: Params, key: string, value: string)
    ensures Keys(Put(p, key, value)) == if key in Keys(p) then Keys(p) else Keys(p) + [key]
    decreases |p|
  {
    if |p| > 0 {
      var r := Put(p, key, value);
      assert Keys(p) == [p[0].0] + Keys(p[1..]);
      if p[0].0 != key {
        PutKeyOrder(p[1..], key, value);
        assert r[1..] == Put(p[1..], key, value);
        assert Keys(r) == [p[0].0] + Keys(r[1..]);
      } else {
        assert Keys(r) == [key] + Keys(p[1..]);
      }
    }
  }

  /** Assignment keeps the insertion order of the keys, appends a new key, and keeps the keys unique. */
  lemma PutKeys(p: Params, key: string, value: string)
    ensures Keys(Put(p, key, value)) == if key in Keys(p) then Keys(p) else Keys(p) + [key]
    ensures UniqueKeys(p) ==> UniqueKeys(Put(p, key, value))
  {
    PutKeyOrder(p, key, value);
    var r := Put(p, key, value);
    if UniqueKeys(p) {
      var ks := Keys(r);
      forall i, j | 0 <= i < j < |r|
        ensures r[i].0 != r[j].0
      {
        assert ks[i] == r[i].0 && ks[j] == r[j].0;
        if j < |p| {
          assert ks[i] == Keys(p)[i] && ks[j] == Keys(p)[j];
        } else {
          assert ks[j] == key && ks[i] == Keys(p)[i];
        }
      }
    }
  }

  /** Whether a comma-separated segment assigns `key` (`'=' in pair` and the trimmed text before the first `=`). */
  predicate Binds(segment: string, key: string)
  {
    '=' in segment && KeyOf(segment) == key
  }

  /** The position of the first `=` in a segment. */
  function FirstEq(segment: string): (i: nat)
    requires '=' in segment
    ensures i < |segment| && segment[i] == '=' && '=' !in segment[..i]
  {
    if segment[0] == '=' then 0
    else
      assert '=' in segment[1..] by {
        var j :| 0 <= j < |segment| && segment[j] == '=';
        assert segment[1..][j - 1] == '=';
      }
      var i := 1 + FirstEq(segment[1..]);
      assert segment[..i] == [segment[0]] + segment[1..][..i - 1];
      i
  }

  /** `pair.split('=', 1)[0].strip()`. */
  function KeyOf(segment: string): string
    requires '=' in segment
  {
    Strip(segment[..FirstEq(segment)])
  }

  /** `pair.split('=', 1)[1].strip()`. */
  function ValueOf(segment: string): string
    requires '=' in segment
  {
    Strip(segment[FirstEq(segment) + 1..])
  }

  /** The dict after the loop has visited `segments` in order. */
  function Bind(segments: seq<string>): Params
  {
    if |segments| == 0 then []
    else
      var p := Bind(segments[..|segments| - 1]);
      var pair := segments[|segments| - 1];
      if '=' in pair then Put(p, KeyOf(pair), ValueOf(pair)) else p
  }

  /** What `_parse_parameters(param_str)` returns. */
  function ParametersOf(paramStr: string): Params
  {
    if paramStr == "" then [] else Bind(Split(paramStr, ','))
  }

  /** `_parse_parameters`: split on commas, keep the segments with `=`, later keys overwrite. */
  method ParseParameters(paramStr: string) returns (params: Params)
    ensures params == ParametersOf(paramStr)
  {
    params := [];
    if paramStr == "" {
      return;
    }
    var segments := Split(paramStr, ',');
    for i := 0 to |segments|
      invariant params == Bind(segments[..i])
    {
      var pair := segments[i];
      assert segments[..i + 1][..i] == segments[..i];
      if '=' in pair {
        params := Put(params, KeyOf(pair), ValueOf(pair));
      }
    }
    assert segments[..|segments|] == segments;
  }

  /** A dict built from segments has one entry per key. */
  lemma {:induction false} BindUniqueKeys(segments: seq<string>)
    ensures UniqueKeys(Bind(segments))
    decreases |segments|
  {
    if |segments| > 0 {
      var pair := segments[|segments| - 1];
      BindUniqueKeys(segments[..|segments| - 1]);
      if '=' in pair {
        PutKeys(Bind(segments[..|segments| - 1]), KeyOf(pair), ValueOf(pair));
      }
    }
  }

  /** The position of the last segment that assigns `key`, if there is one. */
  function LastBinding(segments: seq<string>, key: string): (j: Option<nat>)
    ensures j.None? ==> forall i :: 0 <= i < |segments| ==> !Binds(segments[i], key)
    ensures j.Some? ==> j.value < |segments| && Binds(segments[j.value], key)
    ensures j.Some? ==> forall i :: j.value < i < |segments| ==> !Binds(segments[i], key)
  {
    if |segments| == 0 then None
    else if Binds(segments[|segments| - 1], key) then Some(|segments| - 1)
    else
      var j := LastBinding(segments[..|segments| - 1], key);
      assert forall i :: 0 <= i < |segments| - 1 ==> segments[..|segments| - 1][i] == segments[i];
      j
  }

  /** The value the last assigning segment gives `key`. */
  function LastValue(segments: seq<string>, key: string): Option<string>
  {
    match LastBinding(segments, key)
    case None => None
    case Some(j) => Some(ValueOf(segments[j]))
  }

  /** Last writer wins: looking a key up in the built dict finds the last segment that assigns it. */
  lemma {:induction false} BindLastWins(segments: seq<string>, key: string)
    ensures Lookup(Bind(segments), key) == LastValue(segments, key)
    decreases |segments|
  {
    if |segments| > 0 {
      var n := |segments| - 1;
      var init := segments[..n];
      BindLastWins(init, key);
      if '=' in segments[n] {
        PutLookup(Bind(init), KeyOf(segments[n]), ValueOf(segments[n]), key);
      }
      if !Binds(segments[n], key) {
        var j := LastBinding(init, key);
        assert j.Some? ==> init[j.value] == segments[j.value];
      }
    }
  }

  /**
   * `_parse_parameters`: every key appears once, and a key is present exactly
   * when a comma-separated segment assigns it, with the value of the last
   * such segment.
   */
  lemma ParametersLastWins(paramStr: string, key: string)
    ensures UniqueKeys(ParametersOf(paramStr))
    ensures Lookup(ParametersOf(paramStr), key) == LastValue(Split(paramStr, ','), key)
  {
    var segments := Split(paramStr, ',');
    BindUniqueKeys(segments);
    BindLastWins(segments, key);
    if paramStr == "" {
      assert segments == [""];
      assert !Binds(segments[0], key);
    }
  }
}
