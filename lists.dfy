/** Order-preserving list filtering, as `List.removeAll` (modelled by `DropIn`) and the preparators'
    "collect what the other side lacks" loops perform it. */
module Lists {

  /** The elements of `s` that occur in `keep`, in their order in `s`. */
  function KeepIn<T(==)>(s: seq<T>, keep: seq<T>): (r: seq<T>)
    ensures |r| <= |s|
    ensures forall i :: 0 <= i < |r| ==> r[i] in s && r[i] in keep
    ensures forall i :: 0 <= i < |s| && s[i] in keep ==> s[i] in r
  {
    if s == [] then [] else (if s[0] in keep then [s[0]] else []) + KeepIn(s[1..], keep)
  }

  /** The elements of `s` that do not occur in `drop`, in their order in `s`:
      what `s.removeAll(drop)` leaves. */
  function DropIn<T(==)>(s: seq<T>, drop: seq<T>): (r: seq<T>)
    ensures |r| <= |s|
    ensures forall i :: 0 <= i < |r| ==> r[i] in s && r[i] !in drop
    ensures forall i :: 0 <= i < |s| && s[i] !in drop ==> s[i] in r
  {
    if s == [] then [] else (if s[0] in drop then [] else [s[0]]) + DropIn(s[1..], drop)
  }

  lemma {:induction false} KeepInAppend<T>(s: seq<T>, x: T, keep: seq<T>)
    ensures KeepIn(s + [x], keep) == KeepIn(s, keep) + (if x in keep then [x] else [])
  {
    if s != [] {
      assert (s + [x])[1..] == s[1..] + [x];
      KeepInAppend(s[1..], x, keep);
    }
  }

  lemma {:induction false} DropInAppend<T>(s: seq<T>, x: T, drop: seq<T>)
    ensures DropIn(s + [x], drop) == DropIn(s, drop) + (if x in drop then [] else [x])
  {
    if s != [] {
      assert (s + [x])[1..] == s[1..] + [x];
      DropInAppend(s[1..], x, drop);
    }
  }

  /** Removing nothing leaves the list as it is. */
  lemma {:induction false} DropInNothing<T>(s: seq<T>)
    ensures DropIn(s, []) == s
  {
    if s != [] {
      DropInNothing(s[1..]);
    }
  }

  /** Removing from `s` exactly the elements some `supported` list lacks keeps
      exactly the supported ones: the two-step "collect unsupported, then
      removeAll" is a filter by membership in `supported`. */
  lemma {:induction false} DropUnsupportedKeepsSupported<T>(s: seq<T>, unsupported: seq<T>, supported: seq<T>)
    requires forall x :: x in s ==> (x in unsupported <==> x !in supported)
    ensures DropIn(s, unsupported) == KeepIn(s, supported)
  {
    if s != [] {
      assert s[0] in s;
      assert forall x :: x in s[1..] ==> x in s;
      DropUnsupportedKeepsSupported(s[1..], unsupported, supported);
    }
  }

  /** The loop that collects the elements of `s` missing from `supported`. */
  method CollectMissing<T(==)>(s: seq<T>, supported: seq<T>) returns (missing: seq<T>)
    ensures missing == DropIn(s, supported)
  {
    missing := [];
    var i := 0;
    while i < |s|
      invariant 0 <= i <= |s|
      invariant missing == DropIn(s[..i], supported)
    {
      assert s[..i + 1] == s[..i] + [s[i]];
      DropInAppend(s[..i], s[i], supported);
      if s[i] !in supported {
        missing := missing + [s[i]];
      }
      i := i + 1;
    }
    assert s[..i] == s;
  }
}
