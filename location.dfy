/** The host's place in the location hierarchy, and the ordering of advertise
    types by how specific they are.

    `available_location_types()`, `get_current_location(t)` and
    `compare_types(a, b)` (configure_synapse.py:14-16) come from an external
    package; here they are the fields of `Env` and a depth comparison over the
    ordered list of location types. */
module Location {

  /** What the environment tells the generator about this host:
      - `locations`: `available_location_types()`, the location types from the
        most general to the most specific;
      - `current`: `get_current_location(t)`, this host's value at type `t`;
      - `grouping`: `get_my_grouping(g)`, this host's value at chaos grouping `g`. */
  datatype Env = Env(locations: seq<string>, current: string -> string, grouping: string -> string)

  /** `location_depth_mapping[t]`: the index of `t` in the location list. The
      mapping is built by a dictionary comprehension, so a duplicated type gets
      its last index. */
  function Depth(locs: seq<string>, t: string): (d: nat)
    requires t in locs
    ensures d < |locs| && locs[d] == t
    ensures forall j :: d < j < |locs| ==> locs[j] != t
    decreases |locs|
  {
    if locs[|locs| - 1] == t then |locs| - 1 else Depth(locs[..|locs| - 1], t)
  }

  /** Two types at the same depth are the same type. */
  lemma DepthInjective(locs: seq<string>, a: string, b: string)
    requires a in locs && b in locs
    requires Depth(locs, a) == Depth(locs, b)
    ensures a == b
  {
  }

  /** `compare_types(a, b)`: negative when `a` is more general than `b`, zero when
      they are the same level, positive when `a` is more specific. */
  function CompareTypes(locs: seq<string>, a: string, b: string): (c: int)
    requires a in locs && b in locs
    ensures c < 0 <==> Depth(locs, a) < Depth(locs, b)
    ensures c == 0 <==> a == b
    ensures -1 <= c <= 1
  {
    var da, db := Depth(locs, a), Depth(locs, b);
    if da < db then -1 else if da == db then 0 else 1
  }

  // ---------------------------------------------------------------------------
  // Filtering and sorting the advertise types (configure_synapse.py:391-400)
  // ---------------------------------------------------------------------------

  /** `[t for t in advertise if t in available_locations]`, keeping the order. */
  function Available(advertise: seq<string>, locs: seq<string>): (r: seq<string>)
    ensures forall t :: t in r <==> t in advertise && t in locs
    ensures forall t :: multiset(r)[t] == if t in locs then multiset(advertise)[t] else 0
    decreases |advertise|
  {
    if advertise == [] then []
    else
      var rest := Available(advertise[1..], locs);
      assert advertise == [advertise[0]] + advertise[1..];
      if advertise[0] in locs then [advertise[0]] + rest else rest
  }

  /** Every element is a known location type. */
  predicate AllKnown(s: seq<string>, locs: seq<string>) {
    forall i :: 0 <= i < |s| ==> s[i] in locs
  }

  /** The most specific types come first. */
  predicate DeepestFirst(s: seq<string>, locs: seq<string>)
    requires AllKnown(s, locs)
  {
    forall i, j :: 0 <= i < j < |s| ==> Depth(locs, s[i]) >= Depth(locs, s[j])
  }

  /** Puts `t` in front of the first element that is more general than it. */
  function Insert(t: string, s: seq<string>, locs: seq<string>): (r: seq<string>)
    requires t in locs && AllKnown(s, locs) && DeepestFirst(s, locs)
    ensures multiset(r) == multiset{t} + multiset(s)
    ensures forall x :: x in r ==> x == t || x in s
    ensures AllKnown(r, locs) && DeepestFirst(r, locs)
    decreases |s|
  {
    if s == [] || Depth(locs, s[0]) <= Depth(locs, t) then
      ConsDeepestFirst(t, s, locs);
      [t] + s
    else
      TailDeepestFirst(s, locs);
      var rest := Insert(t, s[1..], locs);
      assert s == [s[0]] + s[1..];
      ConsDeepestFirst(s[0], rest, locs);
      [s[0]] + rest
  }

  lemma TailDeepestFirst(s: seq<string>, locs: seq<string>)
    requires s != [] && AllKnown(s, locs) && DeepestFirst(s, locs)
    ensures AllKnown(s[1..], locs) && DeepestFirst(s[1..], locs)
  {
    forall i, j | 0 <= i < j < |s[1..]|
      ensures Depth(locs, s[1..][i]) >= Depth(locs, s[1..][j])
    {
      assert s[1..][i] == s[i + 1] && s[1..][j] == s[j + 1];
    }
  }

  /** Putting a type in front keeps the order when every other type is at most
      as deep as it. */
  lemma ConsDeepestFirst(t: string, s: seq<string>, locs: seq<string>)
    requires t in locs && AllKnown(s, locs) && DeepestFirst(s, locs)
    requires s != [] ==> Depth(locs, s[0]) <= Depth(locs, t)
    ensures AllKnown([t] + s, locs) && DeepestFirst([t] + s, locs)
  {
    var r := [t] + s;
    ConsKnown(t, s, locs);
    ConsHeadDeepest(t, s, locs);
    ConsRestOrdered(t, s, locs);
    forall i, j | 0 <= i < j < |r| ensures Depth(locs, r[i]) >= Depth(locs, r[j]) {
      if i == 0 {
      }
    }
  }

  lemma ConsKnown(t: string, s: seq<string>, locs: seq<string>)
    requires t in locs && AllKnown(s, locs)
    ensures AllKnown([t] + s, locs)
  {
    var r := [t] + s;
    forall i | 0 < i < |r| ensures r[i] in locs {
      assert r[i] == s[i - 1];
    }
  }

  lemma ConsHeadDeepest(t: string, s: seq<string>, locs: seq<string>)
    requires t in locs && AllKnown(s, locs) && DeepestFirst(s, locs)
    requires s != [] ==> Depth(locs, s[0]) <= Depth(locs, t)
    ensures AllKnown([t] + s, locs)
    ensures forall j :: 0 < j < |[t] + s| ==> Depth(locs, t) >= Depth(locs, ([t] + s)[j])
  {
    var r := [t] + s;
    ConsKnown(t, s, locs);
    forall j | 0 < j < |r| ensures Depth(locs, t) >= Depth(locs, r[j]) {
      assert r[j] == s[j - 1] && s[j - 1] in s;
      FirstIsDeepest(s, s[j - 1], locs);
    }
  }

  lemma ConsRestOrdered(t: string, s: seq<string>, locs: seq<string>)
    requires t in locs && AllKnown(s, locs) && DeepestFirst(s, locs)
    ensures AllKnown([t] + s, locs)
    ensures forall i, j :: 0 < i < j < |[t] + s| ==> Depth(locs, ([t] + s)[i]) >= Depth(locs, ([t] + s)[j])
  {
    var r := [t] + s;
    ConsKnown(t, s, locs);
    forall i, j | 0 < i < j < |r| ensures Depth(locs, r[i]) >= Depth(locs, r[j]) {
      assert r[i] == s[i - 1] && r[j] == s[j - 1];
    }
  }

  /** The first element of a deepest-first sequence is at least as deep as any. */
  lemma FirstIsDeepest(s: seq<string>, x: string, locs: seq<string>)
    requires AllKnown(s, locs) && DeepestFirst(s, locs)
    requires x in s
    ensures Depth(locs, s[0]) >= Depth(locs, x)
  {
    var k :| 0 <= k < |s| && s[k] == x;
    if k > 0 { assert Depth(locs, s[0]) >= Depth(locs, s[k]); }
  }

  /** `sorted(types, key=depth, reverse=True)`: the same types, most specific first. */
  function SortByDepth(s: seq<string>, locs: seq<string>): (r: seq<string>)
    requires AllKnown(s, locs)
    ensures multiset(r) == multiset(s)
    ensures AllKnown(r, locs) && DeepestFirst(r, locs)
    decreases |s|
  {
    if s == [] then []
    else
      assert s == [s[0]] + s[1..];
      Insert(s[0], SortByDepth(s[1..], locs), locs)
  }

  /** The advertise types the generator works with, in the order it uses them. */
  function AdvertiseOrder(advertise: seq<string>, locs: seq<string>): (r: seq<string>)
    ensures AllKnown(r, locs) && DeepestFirst(r, locs)
    ensures forall t :: t in r <==> t in advertise && t in locs
  {
    var a := Available(advertise, locs);
    var r := SortByDepth(a, locs);
    assert forall t :: t in r <==> t in multiset(a);
    r
  }

  /** A deepest-first arrangement of known types is unique: two of them with the
      same elements are equal, because different types have different depths. */
  lemma {:induction false} DeepestFirstUnique(s1: seq<string>, s2: seq<string>, locs: seq<string>)
    requires AllKnown(s1, locs) && DeepestFirst(s1, locs)
    requires AllKnown(s2, locs) && DeepestFirst(s2, locs)
    requires multiset(s1) == multiset(s2)
    ensures s1 == s2
    decreases |s1|
  {
    if s1 != [] {
      SameHead(s1, s2, locs);
      TailMultiset(s1, s2);
      TailDeepestFirst(s1, locs);
      TailDeepestFirst(s2, locs);
      DeepestFirstUnique(s1[1..], s2[1..], locs);
      assert s1 == [s1[0]] + s1[1..] && s2 == [s2[0]] + s2[1..];
    } else {
      assert |s2| == |multiset(s2)| == 0;
    }
  }

  lemma SameHead(s1: seq<string>, s2: seq<string>, locs: seq<string>)
    requires AllKnown(s1, locs) && DeepestFirst(s1, locs)
    requires AllKnown(s2, locs) && DeepestFirst(s2, locs)
    requires multiset(s1) == multiset(s2) && s1 != []
    ensures s2 != [] && s1[0] == s2[0]
  {
    assert |s2| == |multiset(s2)| == |s1|;
    var x, y := s1[0], s2[0];
    assert x in multiset(s2) && y in multiset(s1);
    FirstIsDeepest(s2, x, locs);
    FirstIsDeepest(s1, y, locs);
    DepthInjective(locs, x, y);
  }

  lemma TailMultiset<T>(s1: seq<T>, s2: seq<T>)
    requires multiset(s1) == multiset(s2) && s1 != [] && s2 != [] && s1[0] == s2[0]
    ensures multiset(s1[1..]) == multiset(s2[1..])
  {
    assert s1 == [s1[0]] + s1[1..] && s2 == [s2[0]] + s2[1..];
    assert multiset(s1) == multiset{s1[0]} + multiset(s1[1..]);
    assert multiset(s2) == multiset{s2[0]} + multiset(s2[1..]);
    assert multiset(s1[1..]) == multiset(s1) - multiset{s1[0]};
    assert multiset(s2[1..]) == multiset(s2) - multiset{s2[0]};
  }

  /** Reordering the declared advertise types does not change the order the
      generator uses (test: configure_synapse_test.py:201-202). */
  lemma AdvertiseOrderIgnoresInputOrder(a1: seq<string>, a2: seq<string>, locs: seq<string>)
    requires multiset(a1) == multiset(a2)
    ensures AdvertiseOrder(a1, locs) == AdvertiseOrder(a2, locs)
  {
    var f1, f2 := Available(a1, locs), Available(a2, locs);
    assert multiset(f1) == multiset(f2) by {
      forall t ensures multiset(f1)[t] == multiset(f2)[t] { }
    }
    DeepestFirstUnique(AdvertiseOrder(a1, locs), AdvertiseOrder(a2, locs), locs);
  }
}
