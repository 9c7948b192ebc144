/**
 * The label-emission step of `update_user_group_info`: the `user_group_info`
 * gauge, and which (username, usergroup) series one refresh writes into it.
 */
module Emission {

  import opened Wrappers
  import opened Pagination

  /** The label values of one series of the two-label gauge. */
  datatype Labels = Labels(username: string, usergroup: string)

  /** The gauge: the series currently exported, each with its value. */
  class Gauge {
    var series: map<Labels, int>

    constructor ()
      ensures series == map[]
    {
      series := map[];
    }

    /** Drops every series. */
    method Clear()
      modifies this
      ensures series == map[]
    {
      series := map[];
    }

    /** `labels(...).set(value)`: creates the series if needed and sets it. */
    method Set(key: Labels, value: int)
      modifies this
      ensures series == old(series)[key := value]
    {
      series := series[key := value];
    }
  }

  /**
   * Whether a group passes the `allowed_groups` filter: a missing or empty
   * filter lets every group through.
   */
  predicate Admits(allowed: Option<seq<string>>, name: string)
  {
    match allowed
    case None => true
    case Some(groups) => groups == [] || name in groups
  }

  /** The series written for the members of one group, in member order. */
  function UserLabels(group: string, users: seq<string>): (ls: seq<Labels>)
    ensures |ls| == |users|
    ensures forall k :: 0 <= k < |users| ==> ls[k] == Labels(users[k], group)
  {
    if users == [] then []
    else UserLabels(group, users[..|users| - 1]) + [Labels(users[|users| - 1], group)]
  }

  function GroupLabels(group: Group, allowed: Option<seq<string>>): seq<Labels>
  {
    if Admits(allowed, group.name) then UserLabels(group.name, group.users) else []
  }

  /** Every `set(1)` call one refresh makes, in order, duplicates included. */
  function Emitted(items: seq<Group>, allowed: Option<seq<string>>): seq<Labels>
  {
    if items == [] then []
    else Emitted(items[..|items| - 1], allowed) + GroupLabels(items[|items| - 1], allowed)
  }

  /** The gauge contents after setting each of `ls` to 1 on an empty gauge. */
  function SeriesOf(ls: seq<Labels>): map<Labels, int>
  {
    map l | l in ls :: 1
  }

  /** Number of (group, member) iterations that pass the filter. */
  function PairCount(items: seq<Group>, allowed: Option<seq<string>>): nat
  {
    if items == [] then 0
    else
      var last := items[|items| - 1];
      PairCount(items[..|items| - 1], allowed) + (if Admits(allowed, last.name) then |last.users| else 0)
  }

  /** Some listed group that passes the filter has name `l.usergroup` and member `l.username`. */
  ghost predicate Emits(items: seq<Group>, allowed: Option<seq<string>>, l: Labels)
  {
    exists i :: 0 <= i < |items| && Admits(allowed, items[i].name)
      && l.usergroup == items[i].name && l.username in items[i].users
  }

  lemma InUserLabels(group: string, users: seq<string>, l: Labels)
    ensures l in UserLabels(group, users) <==> l.usergroup == group && l.username in users
  {
    var ls := UserLabels(group, users);
    if l.usergroup == group && l.username in users {
      var k :| 0 <= k < |users| && users[k] == l.username;
      assert ls[k] == l;
    }
  }

  /** The series one refresh writes are exactly the admitted (group, member) pairs. */
  lemma {:induction false} EmittedIff(items: seq<Group>, allowed: Option<seq<string>>, l: Labels)
    ensures l in Emitted(items, allowed) <==> Emits(items, allowed, l)
  {
    if items != [] {
      var n := |items| - 1;
      var init, last := items[..n], items[n];
      EmittedIff(init, allowed, l);
      InUserLabels(last.name, last.users, l);
      assert Emitted(items, allowed) == Emitted(init, allowed) + GroupLabels(last, allowed);
      if Emits(init, allowed, l) {
        var i :| 0 <= i < |init| && Admits(allowed, init[i].name)
          && l.usergroup == init[i].name && l.username in init[i].users;
        assert items[i] == init[i];
      }
      if Emits(items, allowed, l) && !(Admits(allowed, last.name) && l.usergroup == last.name && l.username in last.users) {
        var i :| 0 <= i < |items| && Admits(allowed, items[i].name)
          && l.usergroup == items[i].name && l.username in items[i].users;
        assert i < n && init[i] == items[i];
      }
    }
  }

  lemma EmittedSnoc(items: seq<Group>, i: nat, allowed: Option<seq<string>>)
    requires i < |items|
    ensures Emitted(items[..i + 1], allowed) == Emitted(items[..i], allowed) + GroupLabels(items[i], allowed)
  {
    assert items[..i + 1][..i] == items[..i];
  }

  lemma SeriesOfSnoc(ls: seq<Labels>, l: Labels)
    ensures SeriesOf(ls + [l]) == SeriesOf(ls)[l := 1]
  {
    assert forall x :: x in ls + [l] <==> x in ls || x == l;
  }

  /** With a non-empty filter, `(g, u)` is exported iff a listed group `g` in the filter has member `u`. */
  lemma FilteredSeries(items: seq<Group>, groups: seq<string>, l: Labels)
    requires groups != []
    ensures l in SeriesOf(Emitted(items, Some(groups))) <==>
      exists i :: 0 <= i < |items| && items[i].name in groups
        && l.usergroup == items[i].name && l.username in items[i].users
  {
    EmittedIff(items, Some(groups), l);
  }

  /** Without a filter (missing or empty) every (group, member) pair is exported and nothing else. */
  lemma UnfilteredSeries(items: seq<Group>, allowed: Option<seq<string>>, l: Labels)
    requires allowed == None || allowed == Some([])
    ensures l in SeriesOf(Emitted(items, allowed)) <==>
      exists i :: 0 <= i < |items| && l.usergroup == items[i].name && l.username in items[i].users
  {
    EmittedIff(items, allowed, l);
  }

  /** Whatever the filter, every exported series has value 1 and comes from an admitted listed group. */
  lemma SeriesAreOne(items: seq<Group>, allowed: Option<seq<string>>, l: Labels)
    requires l in SeriesOf(Emitted(items, allowed))
    ensures SeriesOf(Emitted(items, allowed))[l] == 1
    ensures Emits(items, allowed, l)
  {
    EmittedIff(items, allowed, l);
  }

  /** A non-empty filter keeps foreign group names out of the `usergroup` label. */
  lemma OnlyAllowedGroups(items: seq<Group>, groups: seq<string>, l: Labels)
    requires groups != [] && l in SeriesOf(Emitted(items, Some(groups)))
    ensures l.usergroup in groups
  {
    EmittedIff(items, Some(groups), l);
  }

  /** The number of `set(1)` calls is the number of admitted (group, member) iterations. */
  lemma {:induction false} EmittedCount(items: seq<Group>, allowed: Option<seq<string>>)
    ensures |Emitted(items, allowed)| == PairCount(items, allowed)
  {
    if items != [] {
      EmittedCount(items[..|items| - 1], allowed);
    }
  }

  /** Repeated writes collapse: there are never more series than writes. */
  lemma {:induction false} SeriesAtMostWrites(ls: seq<Labels>)
    ensures |SeriesOf(ls)| <= |ls|
  {
    if ls != [] {
      var init, last := ls[..|ls| - 1], ls[|ls| - 1];
      assert init + [last] == ls;
      SeriesAtMostWrites(init);
      SeriesOfSnoc(init, last);
      var m := SeriesOf(init);
      assert m[last := 1].Keys == m.Keys + {last};
      assert |m.Keys + {last}| <= |m.Keys| + 1;
    }
  }

  /** A member listed twice in one group is counted twice but exported once. */
  lemma DuplicateMemberCountedTwice()
    ensures var items := [Group("g", ["u", "u"])];
      PairCount(items, None) == 2 && |SeriesOf(Emitted(items, None))| == 1
  {
    var items := [Group("g", ["u", "u"])];
    var ls := Emitted(items, None);
    assert items[..0] == [];
    assert ls == [Labels("u", "g"), Labels("u", "g")];
    assert SeriesOf(ls) == map[Labels("u", "g") := 1];
  }
}
