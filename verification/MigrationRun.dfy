/** The migration itself: two tables, updated group by group. */
module MigrationRun {
  import opened Common
  import opened Charges
  import opened Pipeline
  import opened Migration

  /** The rows and outbox rows after some of the groups have been merged. */
  ghost predicate RecordsSoFar(rs: Records, now: Records, order: seq<nat>, seen: set<Group>)
    requires forall i :: i in order <==> i in rs
  {
    && (forall id :: id in now <==> id in rs && (GroupOf(rs[id]) in seen ==> Peers(rs, order, id)[0] == id))
    && (forall id :: id in now ==>
                       now[id] == if GroupOf(rs[id]) in seen then Survivor(rs, Peers(rs, order, id)) else Keyed(rs[id]))
  }

  ghost predicate OutboxSoFar(rs: Records, os: Outboxes, now: Outboxes, order: seq<nat>, seen: set<Group>)
    requires KeysDistinct(os) && forall i :: i in order <==> i in rs
  {
    && now.Keys == os.Keys
    && (forall id :: id in os ==> now[id] == RowSoFar(rs, os, order, seen, id))
  }

  ghost function RowSoFar(rs: Records, os: Outboxes, order: seq<nat>, seen: set<Group>, id: nat): OutRow
    requires KeysDistinct(os) && id in os && forall i :: i in order <==> i in rs
  {
    var owner := Owner(rs, os[id].key);
    if owner.Some? && GroupOf(rs[owner.value]) in seen then MergedRow(rs, os, Peers(rs, order, owner.value), id)
    else os[id]
  }

  /** The index of outbox rows still serves the groups to come. */
  ghost predicate IndexServes(rs: Records, os: Outboxes, index: map<EventKey, nat>, seen: set<Group>)
    requires KeysDistinct(os)
  {
    && Points(index, os)
    && (forall id :: id in rs && GroupOf(rs[id]) !in seen ==>
                       Get(index, ChargeKey(rs[id])) == Get(IndexOf(os), ChargeKey(rs[id])))
  }

  /** A group about to be merged: its rows in the query's order, none merged before. */
  ghost predicate Next(rs: Records, os: Outboxes, order: seq<nat>, seen: set<Group>, g: Group, ids: seq<nat>) {
    && Upgradable(rs, os, order)
    && ids == Members(rs, order, g) != []
    && g !in seen
    && (forall id :: id in ids ==> id in rs && GroupOf(rs[id]) == g)
    && (forall id :: id in rs ==> (id in ids <==> GroupOf(rs[id]) == g))
    && Distinct(ids)
  }

  lemma IsNext(rs: Records, os: Outboxes, order: seq<nat>, seen: set<Group>, g: Group)
    requires Upgradable(rs, os, order) && Members(rs, order, g) != [] && g !in seen
    ensures Next(rs, os, order, seen, g, Members(rs, order, g))
  {
    MembersAre(rs, order, g);
    MembersSorted(rs, order, g);
  }

  lemma RecordsStep(rs: Records, os: Outboxes, now: Records, order: seq<nat>, seen: set<Group>, g: Group, ids: seq<nat>)
    requires Next(rs, os, order, seen, g, ids)
    requires RecordsSoFar(rs, now, order, seen)
    ensures RecordsSoFar(rs, now[ids[0] := Survivor(rs, ids)] - Elements(ids[1..]), order, seen + {g})
  {
    hide Survivor, Keyed, MigrationKey, DistinctCharges, KeysDistinct, Before;
    var after := now[ids[0] := Survivor(rs, ids)] - Elements(ids[1..]);
    forall id | id in rs
      ensures GroupOf(rs[id]) == g ==> Peers(rs, order, id) == ids && (id in Elements(ids[1..]) <==> id != ids[0])
      ensures GroupOf(rs[id]) != g ==> id !in ids
    {
      if GroupOf(rs[id]) == g {
        InRest(ids, id);
      }
    }
    hide Members, Elements, QueryOrder;
    assert ids[0] in ids && forall i :: i in Elements(ids[1..]) ==> i in ids;
  }

  lemma InRest(ids: seq<nat>, id: nat)
    requires Distinct(ids) && id in ids
    ensures id in Elements(ids[1..]) <==> id != ids[0]
  {
    var j :| 0 <= j < |ids| && ids[j] == id;
    assert j > 0 ==> ids[1..][j - 1] == id;
  }

  /** What `MergeOutboxes` does to the group is what the whole migration does to its rows. */
  lemma OutboxStep(rs: Records, os: Outboxes, now: Outboxes, after: Outboxes, order: seq<nat>,
                   index: map<EventKey, nat>, seen: set<Group>, g: Group, ids: seq<nat>)
    requires Next(rs, os, order, seen, g, ids)
    requires OutboxSoFar(rs, os, now, order, seen) && IndexServes(rs, os, index, seen)
    requires after.Keys == now.Keys
    requires forall id :: id in now ==>
                            after[id] == if id in Candidates(index, RowsOf(rs, ids))
                                         then FinalRow(now[id], id, Canonical(index, os, RowsOf(rs, ids)).value,
                                                       ChargeKey(rs[ids[0]]))
                                         else now[id]
    ensures OutboxSoFar(rs, os, after, order, seen + {g})
  {
    var rows := RowsOf(rs, ids);
    SameGroupEvents(rs, os, order, index, seen, g, ids);
    hide Candidates, Canonical, RowsOf, ChargeKey, FinalRow, RowSoFar, IndexOf, Upgradable, IndexServes, GroupOf;
    forall id | id in os
      ensures after[id] == RowSoFar(rs, os, order, seen + {g}, id)
    {
      RowStep(rs, os, order, seen, g, ids, id);
    }
  }

  lemma RowStep(rs: Records, os: Outboxes, order: seq<nat>, seen: set<Group>, g: Group, ids: seq<nat>, id: nat)
    requires Next(rs, os, order, seen, g, ids) && id in os
    ensures RowSoFar(rs, os, order, seen + {g}, id)
            == if id in Candidates(IndexOf(os), RowsOf(rs, ids))
               then FinalRow(RowSoFar(rs, os, order, seen, id), id, Canonical(IndexOf(os), os, RowsOf(rs, ids)).value,
                             ChargeKey(rs[ids[0]]))
               else RowSoFar(rs, os, order, seen, id)
  {
    OwnedIff(rs, os, order, seen, g, ids, id);
    hide Candidates, Canonical, RowsOf, MigrationKey, ChargeKey, FinalRow, IndexOf, KeysDistinct, DistinctCharges, QueryOrder;
    assert ids[0] in ids;
    if id in Candidates(IndexOf(os), RowsOf(rs, ids)) {
      assert Peers(rs, order, Owner(rs, os[id].key).value) == ids;
    }
  }

  lemma OwnedIff(rs: Records, os: Outboxes, order: seq<nat>, seen: set<Group>, g: Group, ids: seq<nat>, id: nat)
    requires Next(rs, os, order, seen, g, ids) && id in os
    ensures id in Candidates(IndexOf(os), RowsOf(rs, ids)) <==>
            Owner(rs, os[id].key).Some? && GroupOf(rs[Owner(rs, os[id].key).value]) == g
  {
    var index := IndexOf(os);
    var owner := Owner(rs, os[id].key);
    hide Candidates, IndexOf, RowsOf, MigrationKey, ChargeKey, QueryOrder;
    if owner.Some? && GroupOf(rs[owner.value]) == g {
      CandidateOwner(rs, ids, index, owner.value, id);
    } else if id in Candidates(index, RowsOf(rs, ids)) {
      var q := OwnerOfCandidate(rs, ids, index, id);
      OwnerIs(rs, q);
      assert false;
    }
  }

  lemma SameGroupEvents(rs: Records, os: Outboxes, order: seq<nat>, index: map<EventKey, nat>, seen: set<Group>,
                        g: Group, ids: seq<nat>)
    requires Next(rs, os, order, seen, g, ids) && IndexServes(rs, os, index, seen)
    ensures Candidates(index, RowsOf(rs, ids)) == Candidates(IndexOf(os), RowsOf(rs, ids))
    ensures Canonical(index, os, RowsOf(rs, ids)) == Canonical(IndexOf(os), os, RowsOf(rs, ids))
  {
    var rows := RowsOf(rs, ids);
    hide IndexOf, MigrationKey, ChargeKey, QueryOrder, KeysDistinct, DistinctCharges;
    forall i | 0 <= i < |rows|
      ensures Get(index, ChargeKey(rows[i])) == Get(IndexOf(os), ChargeKey(rows[i]))
    {
      assert rows[i] == rs[ids[i]] && ids[i] in ids;
    }
    SameCandidates(index, IndexOf(os), rows);
    hide Candidates;
    assert Get(index, ChargeKey(rows[0])) == Get(IndexOf(os), ChargeKey(rows[0]));
  }

  lemma IndexStep(rs: Records, os: Outboxes, order: seq<nat>, index: map<EventKey, nat>, seen: set<Group>,
                  g: Group, ids: seq<nat>, kept: nat)
    requires Next(rs, os, order, seen, g, ids) && IndexServes(rs, os, index, seen) && kept in os
    ensures IndexServes(rs, os, index[ChargeKey(rs[ids[0]]) := kept], seen + {g})
  {
    hide IndexOf, MigrationKey, ChargeKey, QueryOrder, KeysDistinct;
    assert ids[0] in ids;
  }

  lemma GroupDone(rs: Records, os: Outboxes, index: map<EventKey, nat>, seen: set<Group>, g: Group)
    requires KeysDistinct(os) && IndexServes(rs, os, index, seen)
    ensures IndexServes(rs, os, index, seen + {g})
  {
  }

  lemma NothingYet(rs: Records, os: Outboxes, order: seq<nat>)
    requires Upgradable(rs, os, order)
    ensures RecordsSoFar(rs, AllKeyed(rs), order, {})
    ensures OutboxSoFar(rs, os, os, order, {})
    ensures IndexServes(rs, os, IndexOf(os), {})
  {
  }

  lemma AllDone(rs: Records, os: Outboxes, records: Records, outboxes: Outboxes, order: seq<nat>, seen: set<Group>)
    requires Upgradable(rs, os, order)
    requires forall g :: g in seen <==> Members(rs, order, g) != []
    requires RecordsSoFar(rs, records, order, seen) && OutboxSoFar(rs, os, outboxes, order, seen)
    ensures records == MergedRecords(rs, order)
    ensures outboxes == MergedOutbox(rs, os, order)
  {
    hide MigrationKey, Survivor, MergedRow, KeysDistinct, DistinctCharges;
    assert forall id :: id in rs ==> GroupOf(rs[id]) in seen by {
      forall id | id in rs
        ensures GroupOf(rs[id]) in seen
      {
        MembersAre(rs, order, GroupOf(rs[id]));
      }
    }
    hide GroupOf, Members, QueryOrder, Before;
  }

  /** The group's own events are as they were before the migration. */
  lemma GroupUntouched(rs: Records, os: Outboxes, now: Outboxes, order: seq<nat>, index: map<EventKey, nat>,
                       seen: set<Group>, g: Group, ids: seq<nat>)
    requires Next(rs, os, order, seen, g, ids)
    requires OutboxSoFar(rs, os, now, order, seen) && IndexServes(rs, os, index, seen)
    ensures forall id :: id in Candidates(index, RowsOf(rs, ids)) ==> id in now && now[id] == os[id]
    ensures var key := ChargeKey(rs[ids[0]]);
            key in index ==> index[key] in now && now[index[key]].key == key
  {
    SameGroupEvents(rs, os, order, index, seen, g, ids);
    hide Candidates, RowsOf, MigrationKey, ChargeKey, QueryOrder, Canonical;
    forall id | id in Candidates(index, RowsOf(rs, ids))
      ensures id in now && now[id] == os[id]
    {
      var q := OwnerOfCandidate(rs, ids, index, id);
      OwnedIff(rs, os, order, seen, g, ids, id);
    }
    var key := ChargeKey(rs[ids[0]]);
    assert ids[0] in ids;
    assert Get(index, key) == Get(IndexOf(os), key);
    OwnerIs(rs, ids[0]);
  }

  /** The dictionary of groups after some of the rows. */
  ghost predicate Collected(rs: Records, done: seq<nat>, groups: seq<Group>, rowsOf: map<Group, seq<nat>>) {
    && (forall id :: id in done ==> id in rs)
    && Distinct(groups)
    && (forall g :: g in groups <==> g in rowsOf)
    && (forall g :: Members(rs, done, g) == if g in rowsOf then rowsOf[g] else [])
    && (forall g :: g in rowsOf ==> rowsOf[g] != [])
  }

  lemma CollectedNone(rs: Records)
    ensures Collected(rs, [], [], map[])
  {
  }

  lemma CollectedStep(rs: Records, done: seq<nat>, groups: seq<Group>, rowsOf: map<Group, seq<nat>>, id: nat)
    requires Collected(rs, done, groups, rowsOf) && id in rs
    ensures var g := GroupOf(rs[id]);
            if g in rowsOf then Collected(rs, done + [id], groups, rowsOf[g := rowsOf[g] + [id]])
            else Collected(rs, done + [id], groups + [g], rowsOf[g := [id]])
  {
    hide MigrationKey;
    var g := GroupOf(rs[id]);
    assert (done + [id])[..|done|] == done;
    forall h
      ensures Members(rs, done + [id], h) == if h == g then Members(rs, done, g) + [id] else Members(rs, done, h)
    {
    }
  }

  lemma MergedMore(c: ChargeRecord, rows: seq<ChargeRecord>, j: nat)
    requires 1 <= j < |rows|
    ensures MergeFields(c, rows[1..j + 1]) == Enrich(MergeFields(c, rows[1..j]), rows[j])
  {
    hide Enrich;
    assert rows[1..j + 1][..j] == rows[1..j + 1];
    assert rows[1..j + 1][..j - 1] == rows[1..j] && rows[1..j + 1][j - 1] == rows[j];
  }

  class ChargeTables {
    var records: Records
    var outboxes: Outboxes

    /** Every row gets its key, and the rows of one charge are collected under it. */
    method AssignKeys(order: seq<nat>) returns (groups: seq<Group>, rowsOf: map<Group, seq<nat>>)
      requires Distinct(order) && forall i :: i in order <==> i in records
      modifies this`records
      ensures records == AllKeyed(old(records))
      ensures Collected(old(records), order, groups, rowsOf)
    {
      hide MigrationKey, Collected, Members;
      ghost var rows := records;
      groups, rowsOf := [], map[];
      CollectedNone(rows);
      for i := 0 to |order|
        invariant records.Keys == rows.Keys
        invariant forall j :: 0 <= j < i ==> records[order[j]] == Keyed(rows[order[j]])
        invariant forall j :: i <= j < |order| ==> records[order[j]] == rows[order[j]]
        invariant Collected(rows, order[..i], groups, rowsOf)
      {
        var id := order[i];
        var g := GroupOf(records[id]);
        CollectedStep(rows, order[..i], groups, rowsOf, id);
        assert order[..i + 1] == order[..i] + [id];
        records := records[id := records[id].(recordKey := g.key, eligible := false)];
        if g !in rowsOf {
          groups, rowsOf := groups + [g], rowsOf[g := [id]];
        } else {
          rowsOf := rowsOf[g := rowsOf[g] + [id]];
        }
      }
      assert order[..|order|] == order;
    }

    /** The first row takes from the others, in turn, what it lacks. */
    method FillCanonical(rows: seq<ChargeRecord>, id: nat)
      requires rows != [] && id in records && records[id] == Keyed(rows[0])
      modifies this`records
      ensures records == old(records)[id := MergeFields(Keyed(rows[0]), rows[1..])]
    {
      hide MigrationKey, IsUidName, MergeRaw;
      var canonical := Keyed(rows[0]);
      for j := 1 to |rows|
        invariant records == old(records) && canonical == MergeFields(Keyed(rows[0]), rows[1..j])
      {
        var duplicate := rows[j];
        MergedMore(Keyed(rows[0]), rows, j);
        hide MergeFields, Keyed;
        if IsUidName(canonical.supporterName, canonical.supporterUid) {
          if !IsUidName(duplicate.supporterName, duplicate.supporterUid) {
            canonical := canonical.(supporterName := duplicate.supporterName);
          }
        }
        if canonical.avatar == "" && duplicate.avatar != "" {
          canonical := canonical.(avatar := duplicate.avatar);
        }
        if canonical.remark == "" && duplicate.remark != "" {
          canonical := canonical.(remark := duplicate.remark);
        }
        canonical := canonical.(raw := MergeRaw(canonical.raw, duplicate.raw));
      }
      MergedTexts(Keyed(rows[0]), rows[1..]);
      assert rows[1..|rows|] == rows[1..];
      records := records[id := records[id].(
      supporterName := canonical.supporterName, avatar := canonical.avatar,
      remark := canonical.remark, raw := canonical.raw)];
    }

    method CandidatesOf(rows: seq<ChargeRecord>, index: map<EventKey, nat>) returns (candidates: seq<nat>)
      ensures candidates == Candidates(index, rows)
    {
      hide ChargeKey;
      candidates := [];
      for j := 0 to |rows|
        invariant candidates == Candidates(index, rows[..j])
      {
        assert rows[..j + 1][..j] == rows[..j];
        var own := ChargeKey(rows[j]);
        if own in index {
          candidates := candidates + [index[own]];
        }
      }
      assert rows[..|rows|] == rows;
    }

    method MarkMerged(candidates: seq<nat>, canonical: nat)
      requires forall id :: id in candidates ==> id in outboxes
      modifies this`outboxes
      ensures outboxes.Keys == old(outboxes).Keys
      ensures forall id :: id in outboxes ==>
                             outboxes[id] == if id in candidates && id != canonical
                                             then old(outboxes)[id].(status := EvMerged, mergedInto := Some(canonical))
                                             else old(outboxes)[id]
    {
      for j := 0 to |candidates|
        invariant outboxes.Keys == old(outboxes).Keys
        invariant forall id :: id in outboxes ==>
                                 outboxes[id] == if id in candidates[..j] && id != canonical
                                                 then old(outboxes)[id].(status := EvMerged, mergedInto := Some(canonical))
                                                 else old(outboxes)[id]
      {
        var id := candidates[j];
        assert candidates[..j + 1] == candidates[..j] + [id];
        if id != canonical {
          outboxes := outboxes[id := outboxes[id].(status := EvMerged, mergedInto := Some(canonical))];
        }
      }
      assert candidates[..|candidates|] == candidates;
    }

    /** One outbox event is kept for the group, the others are marked as merged into it. */
    method MergeOutboxes(rows: seq<ChargeRecord>, was: Outboxes, index: map<EventKey, nat>)
      returns (newIndex: map<EventKey, nat>)
      requires rows != [] && Points(index, was) && was.Keys == outboxes.Keys
      requires ChargeKey(rows[0]) in index ==> outboxes[index[ChargeKey(rows[0])]].key == ChargeKey(rows[0])
      requires forall id :: id in Candidates(index, rows) ==> id in outboxes && outboxes[id].mergedInto == None
      modifies this`outboxes
      ensures outboxes.Keys == old(outboxes).Keys
      ensures forall id :: id in outboxes ==>
                             outboxes[id] == if id in Candidates(index, rows)
                                             then FinalRow(old(outboxes)[id], id,
                                                           Canonical(index, was, rows).value, ChargeKey(rows[0]))
                                             else old(outboxes)[id]
      ensures forall id :: id in Candidates(index, rows) ==>
                             (outboxes[id].mergedInto.None? <==>
                              if ChargeKey(rows[0]) in index then id == index[ChargeKey(rows[0])]
                              else forall t :: t in Candidates(index, rows) && t != id ==> EventBefore(was, id, t))
      ensures newIndex == if Canonical(index, was, rows).Some?
                          then index[ChargeKey(rows[0]) := Canonical(index, was, rows).value]
                          else index
    {
      hide ChargeKey, Candidates;
      var key := ChargeKey(rows[0]);
      newIndex := index;
      var candidates := CandidatesOf(rows, index);
      ghost var kept := Canonical(index, was, rows);
      var canonical := Get(newIndex, key);
      if canonical.None? && candidates != [] {
        var id := EarliestOf(was, candidates);
        canonical := Some(id);
        outboxes := outboxes[id := outboxes[id].(key := key, mergedInto := None)];
        newIndex := newIndex[key := id];
      }
      assert canonical == kept;
      if canonical.Some? {
        MarkMerged(candidates, canonical.value);
      }
    }

    /** Merges the records of one group and their events. */
    method MergeGroup(rows: Records, was: Outboxes, ids: seq<nat>, index: map<EventKey, nat>,
                      ghost order: seq<nat>, ghost seen: set<Group>, ghost g: Group)
      returns (newIndex: map<EventKey, nat>)
      requires Next(rows, was, order, seen, g, ids)
      requires RecordsSoFar(rows, records, order, seen)
      requires OutboxSoFar(rows, was, outboxes, order, seen) && IndexServes(rows, was, index, seen)
      modifies this
      ensures RecordsSoFar(rows, records, order, seen + {g})
      ensures OutboxSoFar(rows, was, outboxes, order, seen + {g}) && IndexServes(rows, was, newIndex, seen + {g})
    {
      var group := RowsOf(rows, ids);
      assert ids[0] in ids && group[0] == rows[ids[0]];
      GroupUntouched(rows, was, outboxes, order, index, seen, g, ids);
      RecordsStep(rows, was, records, order, seen, g, ids);
      hide Candidates, MigrationKey, ChargeKey, RowSoFar, RowsOf, IndexOf, Upgradable, Points, MergeFields;
      FillCanonical(group, ids[0]);
      hide RecordsSoFar;
      ghost var now := outboxes;
      newIndex := MergeOutboxes(group, was, index);
      OutboxStep(rows, was, now, outboxes, order, index, seen, g, ids);
      ghost var kept := Canonical(index, was, group);
      if kept.Some? {
        IndexStep(rows, was, order, index, seen, g, ids, kept.value);
      } else {
        GroupDone(rows, was, index, seen, g);
      }
      records := records - Elements(ids[1..]);
    }

    /** The data part of the migration's upgrade; `order` is the order its query returns. */
    method Upgrade(order: seq<nat>)
      requires Upgradable(records, outboxes, order)
      modifies this
      ensures records == MergedRecords(old(records), order)
      ensures outboxes == MergedOutbox(old(records), old(outboxes), order)
      ensures forall i, id :: i in old(records) && id in old(outboxes)
                              && old(outboxes)[id].key == ChargeKey(old(records)[i]) ==>
                                EventSettled(old(records), old(outboxes), outboxes, i, id)
    {
      hide RecordsSoFar, OutboxSoFar, IndexServes, IndexOf, MergedRecords, MergedOutbox, Members, Next;
      hide KeysDistinct, DistinctCharges, MigrationKey;
      var rows, was := records, outboxes;
      var index := IndexOf(was);
      var groups, rowsOf := AssignKeys(order);
      NothingYet(rows, was, order);
      ghost var seen: set<Group> := {};
      for i := 0 to |groups|
        invariant forall g :: g in seen <==> g in groups[..i]
        invariant RecordsSoFar(rows, records, order, seen)
        invariant OutboxSoFar(rows, was, outboxes, order, seen)
        invariant IndexServes(rows, was, index, seen)
      {
        var g := groups[i];
        IsNext(rows, was, order, seen, g);
        index := MergeGroup(rows, was, rowsOf[g], index, order, seen, g);
        seen := seen + {g};
      }
      assert groups[..|groups|] == groups;
      AllDone(rows, was, records, outboxes, order, seen);
      hide Upgradable, ChargeKey, EventSettled;
      forall i, id | i in rows && id in was && was[id].key == ChargeKey(rows[i])
        ensures EventSettled(rows, was, outboxes, i, id)
      {
        EventIsSettled(rows, was, order, id, i);
      }
    }
  }
}
