/** Dotted-path resolution: `map_from_model_field`.

  The path is split with Python's `str.split(sep)` and the pieces are folded,
  left to right, with `getattr(val, key, sentinel)`. Once the walk has produced
  the sentinel it stays the sentinel: looking an ordinary attribute up on the
  bare `object()` also falls back to the default.
 */
module Path {
  import opened Outcomes
  import opened Values

  // ---------------------------------------------------------------------------
  // str.split with an explicit separator
  // ---------------------------------------------------------------------------

  /** `sep` occurs in `s` starting at index `k`. */
  predicate OccursAt(s: string, sep: string, k: int)
  {
    0 <= k && k + |sep| <= |s| && s[k..k + |sep|] == sep
  }

  /** Index of the leftmost occurrence of a non-empty `sep` in `s` at or after `from`. */
  function FindFrom(s: string, sep: string, from: nat): (r: Option<nat>)
    requires |sep| > 0
    decreases |s| - from
    ensures r.Some? ==> from <= r.value && OccursAt(s, sep, r.value)
    ensures forall k :: from <= k && (r.None? || k < r.value) ==> !OccursAt(s, sep, k)
  {
    if from + |sep| > |s| then None
    else if s[from..from + |sep|] == sep then Some(from)
    else FindFrom(s, sep, from + 1)
  }

  /** `sep.join(parts)`, the inverse of splitting. */
  function Join(parts: seq<string>, sep: string): string
    decreases |parts|
  {
    if |parts| == 0 then ""
    else if |parts| == 1 then parts[0]
    else parts[0] + sep + Join(parts[1..], sep)
  }

  /** `s.split(sep)` for a non-empty separator: cut at every leftmost
      non-overlapping occurrence, keeping empty pieces. */
  function SplitOn(s: string, sep: string): (parts: seq<string>)
    requires |sep| > 0
    decreases |s|
    ensures |parts| >= 1
    ensures Join(parts, sep) == s
    ensures forall i, k :: 0 <= i < |parts| ==> !OccursAt(parts[i], sep, k)
    ensures forall i, k :: 0 <= i < |parts| - 1 && 0 <= k < |parts[i]| ==> !OccursAt(parts[i] + sep, sep, k)
  {
    match FindFrom(s, sep, 0)
    case None => [s]
    case Some(k) =>
      var head, rest := s[..k], SplitOn(s[k + |sep|..], sep);
      NoOccurrenceBefore(s, sep, k);
      assert s == head + sep + s[k + |sep|..] by {
        assert s[k..k + |sep|] == sep;
        assert s == s[..k] + s[k..k + |sep|] + s[k + |sep|..];
      }
      LeftmostCut(s, sep, k);
      var parts := [head] + rest;
      assert parts[1..] == rest;
      forall i | 1 <= i < |parts|
        ensures parts[i] == rest[i - 1]
      {
      }
      parts
  }

  /** Cutting at the leftmost occurrence: the piece before it, followed by the
      separator, contains no earlier occurrence. */
  lemma LeftmostCut(s: string, sep: string, k: nat)
    requires |sep| > 0 && OccursAt(s, sep, k)
    requires forall j :: 0 <= j < k ==> !OccursAt(s, sep, j)
    ensures forall j :: 0 <= j < k ==> !OccursAt(s[..k] + sep, sep, j)
  {
    var t := s[..k] + sep;
    assert t == s[..k + |sep|];
    forall j | 0 <= j < k && OccursAt(t, sep, j)
      ensures false
    {
      assert t[j..j + |sep|] == s[..k + |sep|][j..j + |sep|] == s[j..j + |sep|];
      assert OccursAt(s, sep, j);
    }
  }

  /** The piece before the leftmost occurrence contains no occurrence. */
  lemma NoOccurrenceBefore(s: string, sep: string, k: nat)
    requires |sep| > 0 && k <= |s|
    requires forall j :: 0 <= j < k ==> !OccursAt(s, sep, j)
    ensures forall j :: !OccursAt(s[..k], sep, j)
  {
    forall j | OccursAt(s[..k], sep, j)
      ensures false
    {
      assert s[..k][j..j + |sep|] == s[j..j + |sep|];
      assert OccursAt(s, sep, j);
    }
  }

  /** A one-character separator occurs nowhere in `a + sep + b` before `sep`
      when `a` does not contain it. */
  lemma NoOccurrenceInPrefix(a: string, sep: string, b: string)
    requires |sep| == 1 && sep[0] !in a
    ensures forall k :: k < |a| ==> !OccursAt(a + sep + b, sep, k)
  {
  }

  /** A string without a one-character separator splits into itself alone. */
  lemma SplitOnWithoutChar(a: string, sep: string)
    requires |sep| == 1 && sep[0] !in a
    ensures SplitOn(a, sep) == [a]
  {
  }

  /** Splitting on a one-character separator cuts at its first occurrence. */
  lemma SplitOnFirstChar(a: string, sep: string, b: string)
    requires |sep| == 1 && sep[0] !in a
    ensures SplitOn(a + sep + b, sep) == [a] + SplitOn(b, sep)
  {
    var s := a + sep + b;
    assert OccursAt(s, sep, |a|) by {
      assert s[|a|..|a| + 1] == sep;
    }
    NoOccurrenceInPrefix(a, sep, b);
    assert FindFrom(s, sep, 0) == Some(|a|);
    assert s[..|a|] == a;
    assert s[|a| + 1..] == b;
  }

  /** Splitting undoes joining, for a one-character separator and pieces
      that do not contain it. */
  lemma {:induction false} SplitJoinRoundTrip(parts: seq<string>, sep: string)
    requires |sep| == 1 && |parts| >= 1
    requires forall i :: 0 <= i < |parts| ==> sep[0] !in parts[i]
    ensures SplitOn(Join(parts, sep), sep) == parts
    decreases |parts|
  {
    if |parts| == 1 {
      SplitOnWithoutChar(parts[0], sep);
    } else {
      SplitJoinRoundTrip(parts[1..], sep);
      SplitOnFirstChar(parts[0], sep, Join(parts[1..], sep));
      assert parts == [parts[0]] + parts[1..];
    }
  }

  /** Python's `str.split(sep)`: an empty separator raises `ValueError`. */
  function Split(s: string, sep: string): (r: Outcome<seq<string>>)
    ensures r.Raise? <==> sep == ""
    ensures r.Raise? ==> r.exc == ValueError("empty separator")
    ensures r.Ok? ==> |r.value| >= 1 && Join(r.value, sep) == s
    ensures r.Ok? ==> forall i, k :: 0 <= i < |r.value| ==> !OccursAt(r.value[i], sep, k)
    ensures r.Ok? ==> forall i, k :: 0 <= i < |r.value| - 1 && 0 <= k < |r.value[i]| ==> !OccursAt(r.value[i] + sep, sep, k)
  {
    if sep == "" then Raise(ValueError("empty separator")) else Ok(SplitOn(s, sep))
  }

  // ---------------------------------------------------------------------------
  // The getattr fold
  // ---------------------------------------------------------------------------

  /** One step of the fold: `getattr(acc, key, sentinel)`. */
  function Step(acc: Res, key: string): (r: Res)
    ensures r.Present? <==> acc.Present? && acc.v.Obj? && key in acc.v.attrs
    ensures r.Present? ==> r.v == acc.v.attrs[key]
  {
    match acc
    case Absent => Absent
    case Present(v) => GetAttr(v, key)
  }

  /** `reduce(step, keys, acc)`. */
  function Walk(acc: Res, keys: seq<string>): (r: Res)
    decreases |keys|
    ensures keys == [] ==> r == acc
    ensures r.Present? ==> acc.Present?
  {
    if keys == [] then acc else Walk(Step(acc, keys[0]), keys[1..])
  }

  /** `vs` is a chain of attribute accesses along `keys`: each `vs[i+1]` is the
      attribute `keys[i]` of the structured object `vs[i]`. */
  ghost predicate IsChain(vs: seq<Val>, keys: seq<string>)
  {
    && |vs| == |keys| + 1
    && forall i :: 0 <= i < |keys| ==> vs[i].Obj? && keys[i] in vs[i].attrs && vs[i].attrs[keys[i]] == vs[i + 1]
  }

  /** The sentinel absorbs every remaining segment. */
  lemma {:induction false} WalkAbsentAbsorbs(keys: seq<string>)
    ensures Walk(Absent, keys) == Absent
    decreases |keys|
  {
    if keys != [] {
      WalkAbsentAbsorbs(keys[1..]);
    }
  }

  /** The fold over a concatenation is the fold over the second part started
      where the fold over the first part ended. */
  lemma {:induction false} WalkAppend(acc: Res, k1: seq<string>, k2: seq<string>)
    ensures Walk(acc, k1 + k2) == Walk(Walk(acc, k1), k2)
    decreases |k1|
  {
    if k1 == [] {
      assert k1 + k2 == k2;
    } else {
      assert (k1 + k2)[0] == k1[0];
      assert (k1 + k2)[1..] == k1[1..] + k2;
      WalkAppend(Step(acc, k1[0]), k1[1..], k2);
    }
  }

  /** A walk that yields a value was carried by a chain of existing attributes. */
  lemma {:induction false} WalkPresentHasChain(v: Val, keys: seq<string>, w: Val)
    requires Walk(Present(v), keys) == Present(w)
    ensures exists vs :: IsChain(vs, keys) && vs[0] == v && vs[|keys|] == w
    decreases |keys|
  {
    if keys == [] {
      assert IsChain([v], keys);
    } else {
      if !(v.Obj? && keys[0] in v.attrs) {
        WalkMissHere(v, keys);
        assert false;
      }
      var u := v.attrs[keys[0]];
      var rest := keys[1..];
      WalkPresentHasChain(u, rest, w);
      var tail :| IsChain(tail, rest) && tail[0] == u && tail[|rest|] == w;
      var vs := [v] + tail;
      forall i | 0 <= i < |keys|
        ensures vs[i].Obj? && keys[i] in vs[i].attrs && vs[i].attrs[keys[i]] == vs[i + 1]
      {
        if i > 0 {
          assert vs[i] == tail[i - 1] && vs[i + 1] == tail[i] && keys[i] == rest[i - 1];
        }
      }
      assert IsChain(vs, keys);
    }
  }

  /** A chain of existing attributes along the keys makes the walk yield its last value. */
  lemma {:induction false} ChainWalksPresent(vs: seq<Val>, keys: seq<string>)
    requires IsChain(vs, keys)
    ensures Walk(Present(vs[0]), keys) == Present(vs[|keys|])
    decreases |keys|
  {
    if keys != [] {
      var tail := vs[1..];
      assert forall i :: 0 <= i < |keys| - 1 ==> tail[i] == vs[i + 1] && keys[1..][i] == keys[i + 1];
      assert IsChain(tail, keys[1..]);
      ChainWalksPresent(tail, keys[1..]);
    }
  }

  /** The walk from a value yields `w` exactly when there is a chain of
      existing attributes from that value to `w` along the keys. */
  lemma WalkPresentIffChain(v: Val, keys: seq<string>, w: Val)
    ensures Walk(Present(v), keys) == Present(w) <==> exists vs :: IsChain(vs, keys) && vs[0] == v && vs[|keys|] == w
  {
    if Walk(Present(v), keys) == Present(w) {
      WalkPresentHasChain(v, keys, w);
    }
    if vs: seq<Val> :| IsChain(vs, keys) && vs[0] == v && vs[|keys|] == w {
      ChainWalksPresent(vs, keys);
    }
  }

  /** A miss at segment `i` (the attribute is missing, or the value reached so
      far is `None`, a string, a list or any other value without that attribute)
      makes the whole walk the sentinel; it never raises. */
  lemma WalkMissIsAbsent(v: Val, keys: seq<string>, i: nat, u: Val)
    requires i < |keys|
    requires Walk(Present(v), keys[..i]) == Present(u)
    requires !(u.Obj? && keys[i] in u.attrs)
    ensures Walk(Present(v), keys) == Absent
  {
    var rest := keys[i..];
    assert keys == keys[..i] + rest;
    WalkAppend(Present(v), keys[..i], rest);
    WalkMissHere(u, rest);
  }

  /** A miss on the first segment makes the walk the sentinel. */
  lemma WalkMissHere(u: Val, keys: seq<string>)
    requires keys != [] && !(u.Obj? && keys[0] in u.attrs)
    ensures Walk(Present(u), keys) == Absent
  {
    WalkAbsentAbsorbs(keys[1..]);
  }

  /** `map_from_model_field(source, path, sep, sentinel)`. */
  function MapFromModelField(source: Val, path: string, sep: string): (r: Outcome<Res>)
    ensures r.Raise? <==> sep == ""
    ensures r.Raise? ==> r.exc.ValueError?
    ensures r.Ok? && r.value.Present? ==>
      exists vs :: IsChain(vs, SplitOn(path, sep)) && vs[0] == source && vs[|vs| - 1] == r.value.v
    ensures r.Ok? ==> forall vs :: IsChain(vs, SplitOn(path, sep)) && vs[0] == source ==> r.value == Present(vs[|vs| - 1])
  {
    var keys :- Split(path, sep);
    var found := Walk(Present(source), keys);
    ChainsWalkPresent(source, keys);
    if found.Present? then
      WalkPresentHasChain(source, keys, found.v);
      Ok(found)
    else
      Ok(found)
  }

  /** Every chain along the keys forces the walk to yield its last value. */
  lemma ChainsWalkPresent(source: Val, keys: seq<string>)
    ensures forall vs :: IsChain(vs, keys) && vs[0] == source ==> Walk(Present(source), keys) == Present(vs[|vs| - 1])
  {
    forall vs | IsChain(vs, keys) && vs[0] == source
      ensures Walk(Present(source), keys) == Present(vs[|vs| - 1])
    {
      ChainWalksPresent(vs, keys);
    }
  }
}
