/**
 * `update_user_group_info`: collect every page of the hub's group listing,
 * then clear the `user_group_info` gauge and write one series per admitted
 * (group, member) pair, counting the writes.
 */
module GroupsExporter {

  import opened Wrappers
  import opened Pagination
  import opened Emission

  /** The gauge contents after one refresh that started from `before`. */
  function Refreshed(before: map<Labels, int>, server: Server, start: Url, allowed: Option<seq<string>>): map<Labels, int>
  {
    match Collect(server, start)
    case Fetched(items, _) => SeriesOf(Emitted(items, allowed))
    case Failed(_) => before
  }

  /**
   * One refresh. A failed collection raises before the gauge is touched;
   * otherwise the gauge is cleared and rewritten. `nUsers` and `nGroups` are
   * the two counters the source logs.
   */
  method UpdateUserGroupInfo(server: Server, start: Url, allowed: Option<seq<string>>, gauge: Gauge)
    returns (outcome: FetchOutcome, nUsers: nat, nGroups: nat)
    modifies gauge
    ensures outcome == Collect(server, start)
    ensures gauge.series == Refreshed(old(gauge.series), server, start, allowed)
    ensures outcome.Failed? ==> nUsers == 0 && nGroups == 0
    ensures outcome.Fetched? ==> nUsers == nGroups == PairCount(outcome.items, allowed)
  {
    outcome := FetchAll(server, start);
    nUsers, nGroups := 0, 0;
    if outcome.Failed? {
      return;
    }
    var items := outcome.items;
    var filtering := allowed.Some? && allowed.value != [];
    gauge.Clear();
    ghost var written: seq<Labels> := [];
    for i := 0 to |items|
      invariant written == Emitted(items[..i], allowed)
      invariant gauge.series == SeriesOf(written)
      invariant nUsers == nGroups == |written|
    {
      var count := EmitGroup(gauge, items[i], filtering, allowed, written);
      nGroups := nGroups + count;
      nUsers := nUsers + count;
      EmittedSnoc(items, i, allowed);
      written := written + GroupLabels(items[i], allowed);
    }
    assert items[..|items|] == items;
    EmittedCount(items, allowed);
    assert gauge.series == SeriesOf(Emitted(items, allowed));
  }

  /**
   * The inner loop of the emission over one group's members: each member of
   * an admitted group gets its series set to 1. `filtering` is the truth
   * value of `allowed_groups`.
   */
  method EmitGroup(gauge: Gauge, group: Group, filtering: bool, allowed: Option<seq<string>>, ghost written: seq<Labels>)
    returns (count: nat)
    requires filtering == (allowed.Some? && allowed.value != [])
    requires gauge.series == SeriesOf(written)
    modifies gauge
    ensures gauge.series == SeriesOf(written + GroupLabels(group, allowed))
    ensures count == |GroupLabels(group, allowed)|
  {
    ghost var admitted := Admits(allowed, group.name);
    assert admitted == (!filtering || group.name in allowed.value);
    ghost var done := written;
    count := 0;
    for j := 0 to |group.users|
      invariant done == written + (if admitted then UserLabels(group.name, group.users[..j]) else [])
      invariant gauge.series == SeriesOf(done)
      invariant count == |done| - |written|
    {
      var user := group.users[j];
      if !filtering || group.name in allowed.value {
        count := count + 1;
        gauge.Set(Labels(user, group.name), 1);
        SeriesOfSnoc(done, Labels(user, group.name));
        done := done + [Labels(user, group.name)];
        assert group.users[..j + 1][..j] == group.users[..j];
      }
    }
    assert group.users[..|group.users|] == group.users;
  }

  /** A successful refresh keeps nothing of the series exported before it. */
  lemma RefreshForgetsEarlierSeries(a: map<Labels, int>, b: map<Labels, int>, server: Server, start: Url, allowed: Option<seq<string>>)
    requires Collect(server, start).Fetched?
    ensures Refreshed(a, server, start, allowed) == Refreshed(b, server, start, allowed)
  {
  }

  /** Refreshing twice against the same hub leaves the gauge as refreshing once does. */
  lemma RefreshIdempotent(before: map<Labels, int>, server: Server, start: Url, allowed: Option<seq<string>>)
    ensures var once := Refreshed(before, server, start, allowed);
      Refreshed(once, server, start, allowed) == once
  {
  }

  /** The counters can exceed the number of series: duplicates are counted, not deduplicated. */
  lemma CountersMayExceedSeries(server: Server, start: Url, allowed: Option<seq<string>>)
    requires Collect(server, start).Fetched?
    ensures |Refreshed(map[], server, start, allowed)| <= PairCount(Collect(server, start).items, allowed)
  {
    var items := Collect(server, start).items;
    SeriesAtMostWrites(Emitted(items, allowed));
    EmittedCount(items, allowed);
  }
}
