/** Chaos injection: `merge_dict_for_my_grouping` (configure_synapse.py:759-782)
    and `chaos_options` (configure_synapse.py:733-756).

    A service's `chaos` object maps a grouping type (`ecosystem`, `habitat`,
    …) to a table from grouping values to chaos entries. The host's own value
    at each grouping type is `get_my_grouping`, a file read that is a parameter
    here. */
module Chaos {
  import opened Wrappers
  import opened Service
  import opened Document

  /** `grouping_dict.get(my_grouping, {})` */
  function EntryFor(table: ChaosTable, mine: string): map<string, string> {
    if mine in table then table[mine] else map[]
  }

  /** The entry the host picks for the `i`-th grouping type. */
  function Chosen(chaos: seq<(string, ChaosTable)>, grouping: string -> string, i: nat): map<string, string>
    requires i < |chaos|
  {
    EntryFor(chaos[i].1, grouping(chaos[i].0))
  }

  /** The merged chaos entries: each grouping type's entry in turn, a later one
      overriding the keys of an earlier one (`dict.update`). */
  function Merged(chaos: seq<(string, ChaosTable)>, grouping: string -> string): map<string, string>
    decreases |chaos|
  {
    if chaos == [] then map[]
    else Merged(chaos[..|chaos| - 1], grouping) + Chosen(chaos, grouping, |chaos| - 1)
  }

  lemma MergedSnoc(chaos: seq<(string, ChaosTable)>, grouping: string -> string)
    requires chaos != []
    ensures Merged(chaos, grouping) == Merged(chaos[..|chaos| - 1], grouping) + Chosen(chaos, grouping, |chaos| - 1)
    ensures forall i :: 0 <= i < |chaos| - 1 ==> Chosen(chaos[..|chaos| - 1], grouping, i) == Chosen(chaos, grouping, i)
  {
  }

  /** A key is merged exactly when the host's entry for some grouping type has
      it. */
  lemma {:induction false} MergedKeys(chaos: seq<(string, ChaosTable)>, grouping: string -> string, k: string)
    ensures k in Merged(chaos, grouping) <==> exists i :: 0 <= i < |chaos| && k in Chosen(chaos, grouping, i)
    decreases |chaos|
  {
    if chaos != [] {
      var n := |chaos| - 1;
      MergedSnoc(chaos, grouping);
      MergedKeys(chaos[..n], grouping, k);
      if exists i :: 0 <= i < |chaos| && k in Chosen(chaos, grouping, i) {
        var i :| 0 <= i < |chaos| && k in Chosen(chaos, grouping, i);
        if i < n {
          assert k in Chosen(chaos[..n], grouping, i);
        }
      }
      if k in Merged(chaos[..n], grouping) {
        var i :| 0 <= i < n && k in Chosen(chaos[..n], grouping, i);
        assert k in Chosen(chaos, grouping, i);
      }
    }
  }

  /** The value of a merged key is the one of the last grouping type whose
      entry has it. */
  lemma {:induction false} MergedValue(chaos: seq<(string, ChaosTable)>, grouping: string -> string, k: string)
    requires k in Merged(chaos, grouping)
    ensures exists i :: (0 <= i < |chaos| && k in Chosen(chaos, grouping, i)
      && Merged(chaos, grouping)[k] == Chosen(chaos, grouping, i)[k]
      && forall j :: i < j < |chaos| ==> k !in Chosen(chaos, grouping, j))
    decreases |chaos|
  {
    var n := |chaos| - 1;
    var front := chaos[..n];
    MergedSnoc(chaos, grouping);
    if k in Chosen(chaos, grouping, n) {
      assert Merged(chaos, grouping)[k] == Chosen(chaos, grouping, n)[k];
    } else {
      MergedValue(front, grouping, k);
      var i :| 0 <= i < |front| && k in Chosen(front, grouping, i)
        && Merged(front, grouping)[k] == Chosen(front, grouping, i)[k]
        && forall j :: i < j < |front| ==> k !in Chosen(front, grouping, j);
      forall j | i < j < |chaos| ensures k !in Chosen(chaos, grouping, j) {
        if j < n {
          assert k !in Chosen(front, grouping, j);
        }
      }
      assert Merged(chaos, grouping)[k] == Chosen(chaos, grouping, i)[k];
    }
  }

  /** `merge_dict_for_my_grouping`: the loop over the grouping types, updating
      the result with the host's entry for each. */
  method MergeForGrouping(chaos: seq<(string, ChaosTable)>, grouping: string -> string)
    returns (result: map<string, string>)
    ensures result == Merged(chaos, grouping)
  {
    result := map[];
    for i := 0 to |chaos|
      invariant result == Merged(chaos[..i], grouping)
    {
      var (groupingType, table) := chaos[i];
      var mine := grouping(groupingType);
      var entry := if mine in table then table[mine] else map[];
      result := result + entry;
      assert chaos[..i + 1][..i] == chaos[..i];
    }
    assert chaos[..|chaos|] == chaos;
  }

  /** `entries.get(key)` */
  function Lookup(entries: map<string, string>, key: string): Option<string> {
    if key in entries then Some(entries[key]) else None
  }

  predicate Drops(entries: map<string, string>) {
    Lookup(entries, "fail") == Some("drop")
  }

  predicate Fails503(entries: map<string, string>) {
    Lookup(entries, "fail") == Some("error_503")
  }

  /** `chaos_options` on the merged entries: the extra frontend lines and the
      discovery the watcher ends up with. */
  function ChaosFor(entries: map<string, string>, discovery: Discovery): (r: (seq<Directive>, Discovery))
    ensures r.1 == discovery || r.1 == Discovery(BaseMethod, None)
    ensures |r.0| <= 2
  {
    var delay := Lookup(entries, "delay");
    if Drops(entries) then ([TcpRequestContentReject], discovery)
    else if Fails503(entries) then ([], Discovery(BaseMethod, None))
    else if Truthy(delay) then ([TcpRequestInspectDelay(delay.value), TcpRequestContentAcceptIfWaitEnd], discovery)
    else ([], discovery)
  }

  /** `chaos_options(chaos_dict, discovery_dict)` */
  function ChaosOptions(chaos: seq<(string, ChaosTable)>, grouping: string -> string, discovery: Discovery)
    : (seq<Directive>, Discovery)
  {
    ChaosFor(Merged(chaos, grouping), discovery)
  }

  /** A failure mode wins over a delay: with `fail` set to `drop` or
      `error_503`, the `delay` key changes nothing. */
  lemma FailIgnoresDelay(entries: map<string, string>, discovery: Discovery)
    requires Drops(entries) || Fails503(entries)
    ensures ChaosFor(entries, discovery) == ChaosFor(entries - {"delay"}, discovery)
  {
    var e := entries - {"delay"};
    assert "fail" in e && e["fail"] == entries["fail"];
  }

  /** Only `error_503` replaces the discovery, with the base (no-op) method and
      no frontend lines; the other outcomes keep the discovery. */
  lemma DiscoveryReplacedOnFailure(entries: map<string, string>, discovery: Discovery)
    ensures ChaosFor(entries, discovery).1 != discovery ==> Fails503(entries)
    ensures Fails503(entries) ==> ChaosFor(entries, discovery) == ([], Discovery(BaseMethod, None))
  {
  }

  /** The frontend lines are the reject line exactly for `drop`, and the two
      delay lines exactly when there is no failure mode and a non-empty delay. */
  lemma ChaosLines(entries: map<string, string>, discovery: Discovery)
    ensures TcpRequestContentReject in ChaosFor(entries, discovery).0 <==> Drops(entries)
    ensures (exists d :: TcpRequestInspectDelay(d) in ChaosFor(entries, discovery).0)
      <==> !Drops(entries) && !Fails503(entries) && Truthy(Lookup(entries, "delay"))
  {
    var r := ChaosFor(entries, discovery);
    var delay := Lookup(entries, "delay");
    if !Drops(entries) && !Fails503(entries) && Truthy(delay) {
      assert r.0[0] == TcpRequestInspectDelay(delay.value);
    }
  }

  /** The grouping type iterated last that chooses a `fail` decides it. */
  lemma LastFailWins(chaos: seq<(string, ChaosTable)>, grouping: string -> string, i: nat)
    requires i < |chaos| && "fail" in Chosen(chaos, grouping, i)
    requires forall j :: i < j < |chaos| ==> "fail" !in Chosen(chaos, grouping, j)
    ensures Lookup(Merged(chaos, grouping), "fail") == Some(Chosen(chaos, grouping, i)["fail"])
  {
    MergedKeys(chaos, grouping, "fail");
    MergedValue(chaos, grouping, "fail");
    var m := Merged(chaos, grouping);
    var i' :| 0 <= i' < |chaos| && "fail" in Chosen(chaos, grouping, i')
      && m["fail"] == Chosen(chaos, grouping, i')["fail"]
      && forall j :: i' < j < |chaos| ==> "fail" !in Chosen(chaos, grouping, j);
    assert i' == i;
  }
}
