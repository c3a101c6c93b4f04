/** The migration that gives every charge record its canonical key and merges the records, and
    the outbox events, of one charge. */
module Migration {
  import opened Common
  import opened Charges
  import opened Pipeline

  /** An outbox row as the migration sees it. */
  datatype OutRow = OutRow(key: EventKey, status: EventStatus, created: Time, mergedInto: Option<nat>)

  /** What makes rows the same charge. */
  datatype Group = Group(account: AccountId, key: Digest)

  type Records = map<nat, ChargeRecord>
  type Outboxes = map<nat, OutRow>

  function GroupOf(r: ChargeRecord): Group {
    Group(r.account, MigrationKey(r))
  }

  function Keyed(r: ChargeRecord): ChargeRecord {
    r.(recordKey := MigrationKey(r), eligible := false)
  }

  function AllKeyed(rs: Records): Records {
    map id | id in rs :: Keyed(rs[id])
  }

  // ---------------------------------------------------------------- merging the fields

  /** A canonical row takes from each duplicate in turn what it lacks. */
  function MergeFields(c: ChargeRecord, dups: seq<ChargeRecord>): ChargeRecord {
    if dups == [] then c else Enrich(MergeFields(c, dups[..|dups| - 1]), dups[|dups| - 1])
  }

  /** The first non-empty of a list of texts. */
  function FirstNonEmpty(texts: seq<string>): string {
    if texts == [] then "" else if texts[0] != "" then texts[0] else FirstNonEmpty(texts[1..])
  }

  function Avatars(rs: seq<ChargeRecord>): seq<string> {
    seq(|rs|, i requires 0 <= i < |rs| => rs[i].avatar)
  }

  function Remarks(rs: seq<ChargeRecord>): seq<string> {
    seq(|rs|, i requires 0 <= i < |rs| => rs[i].remark)
  }

  lemma {:induction false} FirstNonEmptySnoc(texts: seq<string>, t: string)
    ensures FirstNonEmpty(texts + [t]) == if FirstNonEmpty(texts) != "" then FirstNonEmpty(texts) else t
  {
    if texts == [] {
      assert texts + [t] == [t];
    } else {
      assert (texts + [t])[1..] == texts[1..] + [t];
      FirstNonEmptySnoc(texts[1..], t);
    }
  }

  /** Avatar and remark become the row's own, or else the first a later row has; identity,
      money and time stay the row's own. */
  lemma {:induction false} MergedTexts(c: ChargeRecord, dups: seq<ChargeRecord>)
    ensures MergeFields(c, dups).avatar == FirstNonEmpty([c.avatar] + Avatars(dups))
    ensures MergeFields(c, dups).remark == FirstNonEmpty([c.remark] + Remarks(dups))
    ensures MergeFields(c, dups) ==
            c.(supporterName := MergeFields(c, dups).supporterName, avatar := MergeFields(c, dups).avatar,
               remark := MergeFields(c, dups).remark, raw := MergeFields(c, dups).raw)
  {
    if dups == [] {
      assert Avatars(dups) == [] && Remarks(dups) == [];
    } else {
      var n := |dups| - 1;
      MergedTexts(c, dups[..n]);
      assert [c.avatar] + Avatars(dups) == ([c.avatar] + Avatars(dups[..n])) + [dups[n].avatar];
      assert [c.remark] + Remarks(dups) == ([c.remark] + Remarks(dups[..n])) + [dups[n].remark];
      FirstNonEmptySnoc([c.avatar] + Avatars(dups[..n]), dups[n].avatar);
      FirstNonEmptySnoc([c.remark] + Remarks(dups[..n]), dups[n].remark);
    }
  }

  function TextOf(raw: map<Field, string>, f: Field): string {
    if f in raw then raw[f] else ""
  }

  function RawTexts(rs: seq<ChargeRecord>, f: Field): seq<string> {
    seq(|rs|, i requires 0 <= i < |rs| => TextOf(rs[i].raw, f))
  }

  ghost predicate SomeHas(rs: seq<ChargeRecord>, f: Field) {
    exists i :: 0 <= i < |rs| && f in rs[i].raw
  }

  lemma RawSnoc(rs: seq<ChargeRecord>, r: ChargeRecord, f: Field)
    ensures RawTexts(rs + [r], f) == RawTexts(rs, f) + [TextOf(r.raw, f)]
    ensures SomeHas(rs + [r], f) <==> SomeHas(rs, f) || f in r.raw
  {
    hide TextOf;
    assert (rs + [r])[|rs|] == r && forall i :: 0 <= i < |rs| ==> (rs + [r])[i] == rs[i];
  }

  lemma MergedField(mine: map<Field, string>, theirs: map<Field, string>, f: Field)
    ensures f in MergeRaw(mine, theirs) <==> f in mine || f in theirs
    ensures TextOf(MergeRaw(mine, theirs), f) == if TextOf(mine, f) != "" then TextOf(mine, f) else TextOf(theirs, f)
  {
  }

  /** Every raw field is there that any of the rows has, with the first text of it that is not empty. */
  lemma {:induction false} MergedRaw(c: ChargeRecord, dups: seq<ChargeRecord>, f: Field)
    ensures f in MergeFields(c, dups).raw <==> SomeHas([c] + dups, f)
    ensures TextOf(MergeFields(c, dups).raw, f) == FirstNonEmpty(RawTexts([c] + dups, f))
  {
    hide TextOf, RawTexts, SomeHas, MergeRaw, FirstNonEmpty;
    if dups == [] {
      assert [c] + dups == [c];
      OneRaw(c, f);
    } else {
      var n := |dups| - 1;
      MergedRaw(c, dups[..n], f);
      assert [c] + dups == [c] + dups[..n] + [dups[n]];
      RawSnoc([c] + dups[..n], dups[n], f);
      FirstNonEmptySnoc(RawTexts([c] + dups[..n], f), TextOf(dups[n].raw, f));
      MergedField(MergeFields(c, dups[..n]).raw, dups[n].raw, f);
    }
  }

  lemma OneRaw(c: ChargeRecord, f: Field)
    ensures f in c.raw <==> SomeHas([c], f)
    ensures TextOf(c.raw, f) == FirstNonEmpty(RawTexts([c], f))
  {
    assert [c][0] == c;
    assert RawTexts([c], f) == [TextOf(c.raw, f)] && FirstNonEmpty([]) == "";
  }

  predicate Informative(r: ChargeRecord) {
    !IsUidName(r.supporterName, r.supporterUid)
  }

  /** The name of the first row that is informative for itself and not just `uid`; failing that
      the last that is informative for itself; failing that `own`. */
  function ChosenName(own: string, uid: string, dups: seq<ChargeRecord>): string {
    if dups == [] then own
    else
      var n := |dups| - 1;
      var before := ChosenName(own, uid, dups[..n]);
      if IsUidName(before, uid) && Informative(dups[n]) then dups[n].supporterName else before
  }

  lemma {:induction false} MergedName(c: ChargeRecord, dups: seq<ChargeRecord>)
    ensures MergeFields(c, dups).supporterName == ChosenName(c.supporterName, c.supporterUid, dups)
    ensures MergeFields(c, dups).supporterUid == c.supporterUid
  {
    if dups != [] {
      MergedName(c, dups[..|dups| - 1]);
    }
  }

  /** A row's own informative name stays. Otherwise the first later row whose name is informative
      for itself and differs from the canonical row's uid gives it, and none that is informative
      only for itself can stay in its way. */
  lemma {:induction false} NameIsFirstInformative(c: ChargeRecord, dups: seq<ChargeRecord>, k: nat)
    requires k < |dups| && Informative(dups[k]) && !IsUidName(dups[k].supporterName, c.supporterUid)
    requires forall i :: 0 <= i < k ==> !Informative(dups[i]) || IsUidName(dups[i].supporterName, c.supporterUid)
    ensures MergeFields(c, dups).supporterName == if Informative(c) then c.supporterName else dups[k].supporterName
  {
    MergedName(c, dups);
    ChosenNameAt(c.supporterName, c.supporterUid, dups, k);
  }

  lemma {:induction false} ChosenNameAt(own: string, uid: string, dups: seq<ChargeRecord>, k: nat)
    requires k < |dups| && Informative(dups[k]) && !IsUidName(dups[k].supporterName, uid)
    requires forall i :: 0 <= i < k ==> !Informative(dups[i]) || IsUidName(dups[i].supporterName, uid)
    ensures ChosenName(own, uid, dups) == if !IsUidName(own, uid) then own else dups[k].supporterName
  {
    var n := |dups| - 1;
    if k < n {
      ChosenNameAt(own, uid, dups[..n], k);
    } else {
      ChosenNameBefore(own, uid, dups[..n]);
    }
  }

  lemma {:induction false} ChosenNameBefore(own: string, uid: string, dups: seq<ChargeRecord>)
    requires forall i :: 0 <= i < |dups| ==> !Informative(dups[i]) || IsUidName(dups[i].supporterName, uid)
    ensures if !IsUidName(own, uid) then ChosenName(own, uid, dups) == own else IsUidName(ChosenName(own, uid, dups), uid)
  {
    if dups != [] {
      ChosenNameBefore(own, uid, dups[..|dups| - 1]);
    }
  }

  /** A row's own informative name stays, and so does any name if no later row has an informative one. */
  lemma {:induction false} OwnNameStays(c: ChargeRecord, dups: seq<ChargeRecord>)
    requires Informative(c) || forall i :: 0 <= i < |dups| ==> !Informative(dups[i])
    ensures MergeFields(c, dups).supporterName == c.supporterName
  {
    if dups != [] {
      OwnNameStays(c, dups[..|dups| - 1]);
      MergedName(c, dups[..|dups| - 1]);
    }
  }

  /** With one uid throughout a group, that is the first informative name. */
  lemma SameUidName(c: ChargeRecord, dups: seq<ChargeRecord>, k: nat)
    requires forall i :: 0 <= i < |dups| ==> dups[i].supporterUid == c.supporterUid
    requires k < |dups| && Informative(dups[k]) && forall i :: 0 <= i < k ==> !Informative(dups[i])
    ensures MergeFields(c, dups).supporterName == if Informative(c) then c.supporterName else dups[k].supporterName
  {
    NameIsFirstInformative(c, dups, k);
  }

  /** A name that tells more than `uid`. */
  predicate Beyond(r: ChargeRecord, uid: string) {
    !IsUidName(r.supporterName, uid)
  }

  /** Where every informative name is only the kept row's uid, each replaces the one before. */
  lemma {:induction false} LastUidName(own: string, uid: string, dups: seq<ChargeRecord>, m: nat)
    requires IsUidName(own, uid) && m < |dups| && Informative(dups[m])
    requires forall i :: 0 <= i < |dups| && Informative(dups[i]) ==> i <= m && !Beyond(dups[i], uid)
    ensures ChosenName(own, uid, dups) == dups[m].supporterName
  {
    var n := |dups| - 1;
    if m < n {
      LastUidName(own, uid, dups[..n], m);
    } else {
      ChosenNameBefore(own, uid, dups[..n]);
    }
  }

  /** A kept row without a name of its own gets the first informative one, `dups[k]`'s, exactly when
      that tells more than the kept row's uid, or no later informative one does and the last of them,
      `dups[m]`'s, is the same text. */
  lemma FirstInformativeIff(c: ChargeRecord, dups: seq<ChargeRecord>, k: nat, m: nat)
    requires !Informative(c)
    requires k <= m < |dups| && Informative(dups[k]) && Informative(dups[m])
    requires forall i :: 0 <= i < |dups| && Informative(dups[i]) ==> k <= i <= m
    ensures MergeFields(c, dups).supporterName == dups[k].supporterName <==>
            || Beyond(dups[k], c.supporterUid)
            || (&& (forall i :: k <= i <= m && Informative(dups[i]) ==> !Beyond(dups[i], c.supporterUid))
                && dups[m].supporterName == dups[k].supporterName)
  {
    MergedName(c, dups);
    var uid := c.supporterUid;
    if Beyond(dups[k], uid) {
      NameIsFirstInformative(c, dups, k);
    } else if j :| k <= j <= m && Informative(dups[j]) && Beyond(dups[j], uid) {
      var f := FirstBeyond(dups, uid, j);
      NameIsFirstInformative(c, dups, f);
    } else {
      LastUidName(c.supporterName, uid, dups, m);
    }
  }

  /** The first informative name up to `j` that tells more than `uid`. */
  lemma {:induction false} FirstBeyond(dups: seq<ChargeRecord>, uid: string, j: nat) returns (f: nat)
    requires j < |dups| && Informative(dups[j]) && Beyond(dups[j], uid)
    ensures f <= j && Informative(dups[f]) && Beyond(dups[f], uid)
    ensures forall i :: 0 <= i < f ==> !(Informative(dups[i]) && Beyond(dups[i], uid))
  {
    f := j;
    if i :| 0 <= i < j && Informative(dups[i]) && Beyond(dups[i], uid) {
      f := FirstBeyond(dups, uid, i);
    }
  }

  /** With several uids the first informative name can be lost: one that is only the kept row's uid
      gives way to any later one that tells more. */
  lemma OtherUidName(c: ChargeRecord, first: ChargeRecord, second: ChargeRecord)
    requires !Informative(c) && Informative(first) && Informative(second)
    requires !Beyond(first, c.supporterUid) && Beyond(second, c.supporterUid)
    ensures MergeFields(c, [first, second]).supporterName == second.supporterName != first.supporterName
  {
    NameIsFirstInformative(c, [first, second], 1);
    FirstInformativeIff(c, [first, second], 0, 1);
  }

  /** Such rows exist. */
  lemma OtherUidRows(c: ChargeRecord, d: ChargeRecord)
    returns (kept: ChargeRecord, first: ChargeRecord, second: ChargeRecord)
    ensures !Informative(kept) && Informative(first) && Informative(second)
    ensures !Beyond(first, kept.supporterUid) && Beyond(second, kept.supporterUid)
  {
    kept := c.(supporterName := "", supporterUid := "7");
    first := d.(supporterName := "7", supporterUid := "8");
    second := d.(supporterName := "Ann", supporterUid := "8");
  }

  // ---------------------------------------------------------------- groups

  /** The rows of a group, in the order of the query. */
  function Members(rs: Records, order: seq<nat>, g: Group): seq<nat>
    requires forall id :: id in order ==> id in rs
  {
    if order == [] then []
    else
      var n := |order| - 1;
      assert forall id :: id in order[..n] ==> id in order;
      var before := Members(rs, order[..n], g);
      if GroupOf(rs[order[n]]) == g then before + [order[n]] else before
  }

  function RowsOf(rs: Records, ids: seq<nat>): seq<ChargeRecord>
    requires forall id :: id in ids ==> id in rs
  {
    seq(|ids|, i requires 0 <= i < |ids| => assert ids[i] in ids; rs[ids[i]])
  }

  /** The query's order: by creation, then by id. */
  predicate Before(rs: Records, a: nat, b: nat)
    requires a in rs && b in rs
  {
    rs[a].created < rs[b].created || (rs[a].created == rs[b].created && a < b)
  }

  ghost predicate QueryOrder(rs: Records, order: seq<nat>) {
    && (forall id :: id in order <==> id in rs)
    && (forall i, j :: 0 <= i < j < |order| ==> Before(rs, order[i], order[j]))
  }

  lemma {:induction false} MembersAre(rs: Records, order: seq<nat>, g: Group)
    requires forall id :: id in order ==> id in rs
    ensures forall id :: id in Members(rs, order, g) <==> id in order && GroupOf(rs[id]) == g
  {
    if order != [] {
      var n := |order| - 1;
      assert forall id :: id in order[..n] ==> id in order;
      MembersAre(rs, order[..n], g);
      assert order == order[..n] + [order[n]];
    }
  }

  /** Members keep the query's order, so sorting a group again changes nothing and its first row
      is its earliest. */
  lemma {:induction false} MembersSorted(rs: Records, order: seq<nat>, g: Group)
    requires forall id :: id in order ==> id in rs
    requires forall i, j :: 0 <= i < j < |order| ==> Before(rs, order[i], order[j])
    ensures forall id :: id in Members(rs, order, g) ==> id in rs
    ensures forall i, j :: 0 <= i < j < |Members(rs, order, g)| ==>
                             Before(rs, Members(rs, order, g)[i], Members(rs, order, g)[j])
  {
    hide Members, Before, GroupOf;
    MembersAre(rs, order, g);
    if order == [] {
      NoMembers(rs, g);
    } else {
      var n := |order| - 1;
      var front := MembersSnoc(rs, order, g);
      MembersSorted(rs, order[..n], g);
      MembersAre(rs, order[..n], g);
      forall i | 0 <= i < |front|
        ensures Before(rs, front[i], order[n])
      {
        assert front[i] in front;
        BeforeLast(rs, order, front[i]);
      }
    }
  }

  lemma NoMembers(rs: Records, g: Group)
    ensures Members(rs, [], g) == []
  {
  }

  lemma MembersSnoc(rs: Records, order: seq<nat>, g: Group) returns (front: seq<nat>)
    requires order != [] && forall id :: id in order ==> id in rs
    ensures forall id :: id in order[..|order| - 1] ==> id in rs
    ensures front == Members(rs, order[..|order| - 1], g)
    ensures Members(rs, order, g) == front || Members(rs, order, g) == front + [order[|order| - 1]]
  {
    assert forall id :: id in order[..|order| - 1] ==> id in order;
    front := Members(rs, order[..|order| - 1], g);
    hide GroupOf;
  }

  lemma BeforeLast(rs: Records, order: seq<nat>, id: nat)
    requires order != [] && forall i :: i in order ==> i in rs
    requires forall i, j :: 0 <= i < j < |order| ==> Before(rs, order[i], order[j])
    requires id in order[..|order| - 1]
    ensures id in rs && Before(rs, id, order[|order| - 1])
  {
    var j :| 0 <= j < |order| - 1 && order[j] == id;
    assert order[j] in order;
  }

  /** The row a group becomes. */
  function Survivor(rs: Records, ids: seq<nat>): ChargeRecord
    requires ids != [] && forall id :: id in ids ==> id in rs
  {
    MergeFields(Keyed(rs[ids[0]]), RowsOf(rs, ids)[1..])
  }

  lemma {:induction false} SurvivorKeepsKey(c: ChargeRecord, dups: seq<ChargeRecord>)
    requires forall i :: 0 <= i < |dups| ==> MigrationKey(dups[i]) == MigrationKey(c)
    ensures MigrationKey(MergeFields(c, dups)) == MigrationKey(c)
  {
    hide MigrationKey, Enrich;
    if dups != [] {
      var n := |dups| - 1;
      SurvivorKeepsKey(c, dups[..n]);
      EnrichKeepsKeys(MergeFields(c, dups[..n]), dups[n]);
    }
  }

  // ---------------------------------------------------------------- outbox events

  ghost predicate KeysDistinct(os: Outboxes) {
    forall a, b :: a in os && b in os && a != b ==> os[a].key != os[b].key
  }

  /** Outbox rows by dedupe key. */
  function IndexOf(os: Outboxes): (index: map<EventKey, nat>)
    requires KeysDistinct(os)
    ensures forall k :: k in index ==> index[k] in os && os[index[k]].key == k
    ensures forall id :: id in os ==> os[id].key in index && index[os[id].key] == id
  {
    map id | id in os :: os[id].key := id
  }

  predicate Points(index: map<EventKey, nat>, os: Outboxes) {
    forall k :: k in index ==> index[k] in os
  }

  /** The rows' outbox events, in the rows' order. */
  function Candidates(index: map<EventKey, nat>, rows: seq<ChargeRecord>): seq<nat> {
    if rows == [] then []
    else
      var n := |rows| - 1;
      var before := Candidates(index, rows[..n]);
      if ChargeKey(rows[n]) in index then before + [index[ChargeKey(rows[n])]] else before
  }

  predicate Earlier(os: Outboxes, a: nat, b: nat)
    requires a in os && b in os
  {
    os[a].created < os[b].created || (os[a].created == os[b].created && a <= b)
  }

  /** The earliest of some outbox rows, by creation and then by id. */
  function EarliestOf(os: Outboxes, ids: seq<nat>): (r: nat)
    requires ids != [] && forall id :: id in ids ==> id in os
    ensures r in ids && forall id :: id in ids ==> Earlier(os, r, id)
  {
    if |ids| == 1 then ids[0]
    else
      var n := |ids| - 1;
      assert ids == ids[..n] + [ids[n]];
      assert forall id :: id in ids[..n] ==> id in ids;
      var r := EarliestOf(os, ids[..n]);
      if Earlier(os, r, ids[n]) then r else ids[n]
  }

  lemma {:induction false} CandidatesAre(index: map<EventKey, nat>, rows: seq<ChargeRecord>)
    ensures forall id :: id in Candidates(index, rows) <==>
                           exists i :: 0 <= i < |rows| && ChargeKey(rows[i]) in index && index[ChargeKey(rows[i])] == id
  {
    if rows != [] {
      var n := |rows| - 1;
      CandidatesAre(index, rows[..n]);
      forall id | id in Candidates(index, rows)
        ensures exists i :: 0 <= i < |rows| && ChargeKey(rows[i]) in index && index[ChargeKey(rows[i])] == id
      {
        if id in Candidates(index, rows[..n]) {
          var i :| 0 <= i < n && ChargeKey(rows[..n][i]) in index && index[ChargeKey(rows[..n][i])] == id;
          assert rows[i] == rows[..n][i];
        }
      }
      forall i | 0 <= i < |rows| && ChargeKey(rows[i]) in index
        ensures index[ChargeKey(rows[i])] in Candidates(index, rows)
      {
        if i < n {
          assert rows[..n][i] == rows[i];
        }
      }
    }
  }

  /** The outbox event a group keeps: the first row's own, or else the earliest of the others'. */
  function Canonical(index: map<EventKey, nat>, os: Outboxes, rows: seq<ChargeRecord>): (r: Option<nat>)
    requires rows != [] && Points(index, os)
    ensures r.Some? <==> Candidates(index, rows) != []
    ensures r.Some? ==> r.value in Candidates(index, rows) && r.value in os
  {
    CandidatesAre(index, rows);
    if ChargeKey(rows[0]) in index then
      assert index[ChargeKey(rows[0])] in Candidates(index, rows);
      Some(index[ChargeKey(rows[0])])
    else
      var cands := Candidates(index, rows);
      if cands == [] then None else Some(EarliestOf(os, cands))
  }

  /** What becomes of an outbox row that belongs to a row of the group. */
  function FinalRow(o: OutRow, id: nat, canonical: nat, key: EventKey): OutRow {
    if id == canonical then o.(key := key) else o.(status := EvMerged, mergedInto := Some(canonical))
  }

  /** Two indexes that agree on the rows' keys give the group the same events. */
  lemma {:induction false} SameCandidates(a: map<EventKey, nat>, b: map<EventKey, nat>, rows: seq<ChargeRecord>)
    requires forall i :: 0 <= i < |rows| ==> Get(a, ChargeKey(rows[i])) == Get(b, ChargeKey(rows[i]))
    ensures Candidates(a, rows) == Candidates(b, rows)
  {
    if rows != [] {
      var n := |rows| - 1;
      SameCandidates(a, b, rows[..n]);
      assert Get(a, ChargeKey(rows[n])) == Get(b, ChargeKey(rows[n]));
    }
  }

  // ---------------------------------------------------------------- the whole migration

  /** No two rows of an account share an event identifier. */
  ghost predicate DistinctCharges(rs: Records) {
    forall a, b :: a in rs && b in rs && a != b ==> ChargeKey(rs[a]) != ChargeKey(rs[b])
  }

  /** A database the migration can meet: the query's order, the two unique constraints, and no
      merged event, merging being what this migration introduces. */
  ghost predicate Upgradable(rs: Records, os: Outboxes, order: seq<nat>) {
    && QueryOrder(rs, order)
    && DistinctCharges(rs)
    && KeysDistinct(os)
    && (forall id :: id in os ==> os[id].status != EvMerged && os[id].mergedInto == None)
  }

  /** The rows of a record's group. */
  function Peers(rs: Records, order: seq<nat>, id: nat): (r: seq<nat>)
    requires (forall i :: i in order <==> i in rs) && id in rs
    ensures id in r && forall i :: i in r ==> i in rs
  {
    MembersAre(rs, order, GroupOf(rs[id]));
    Members(rs, order, GroupOf(rs[id]))
  }

  /** The records afterwards: of each group the first row, completed from the others. */
  function MergedRecords(rs: Records, order: seq<nat>): Records
    requires forall i :: i in order <==> i in rs
  {
    map id | id in rs && Peers(rs, order, id)[0] == id :: Survivor(rs, Peers(rs, order, id))
  }

  /** The record an event's dedupe key belongs to. */
  ghost function Owner(rs: Records, k: EventKey): (r: Option<nat>)
    ensures r.Some? ==> r.value in rs && ChargeKey(rs[r.value]) == k
    ensures r.None? ==> forall id :: id in rs ==> ChargeKey(rs[id]) != k
  {
    if id :| id in rs && ChargeKey(rs[id]) == k then Some(id) else None
  }

  /** An outbox row afterwards, given the rows its record was merged with. */
  ghost function MergedRow(rs: Records, os: Outboxes, peers: seq<nat>, id: nat): OutRow
    requires id in os && KeysDistinct(os)
    requires peers != [] && forall i :: i in peers ==> i in rs
  {
    var canonical := Canonical(IndexOf(os), os, RowsOf(rs, peers));
    if canonical.None? then os[id]
    else FinalRow(os[id], id, canonical.value, ChargeKey(rs[peers[0]]))
  }

  ghost function MergedOutbox(rs: Records, os: Outboxes, order: seq<nat>): Outboxes
    requires KeysDistinct(os) && forall i :: i in order <==> i in rs
  {
    map id | id in os ::
      var owner := Owner(rs, os[id].key);
      if owner.None? then os[id] else MergedRow(rs, os, Peers(rs, order, owner.value), id)
  }

  /** One row, where its owner's group and the event the group keeps are known. */
  lemma MergedRowIs(rs: Records, os: Outboxes, order: seq<nat>, id: nat, r: nat, canonical: nat)
    requires KeysDistinct(os) && forall i :: i in order <==> i in rs
    requires id in os && Owner(rs, os[id].key) == Some(r)
    requires Canonical(IndexOf(os), os, RowsOf(rs, Peers(rs, order, r))) == Some(canonical)
    ensures MergedOutbox(rs, os, order)[id] == FinalRow(os[id], id, canonical, ChargeKey(rs[Peers(rs, order, r)[0]]))
  {
    hide Canonical, IndexOf, RowsOf, Peers, Owner, ChargeKey, KeysDistinct;
  }

  // ---------------------------------------------------------------- what the migration achieves

  /** The survivor is the group's first row, completed: it keeps that row's identity and carries
      the key its own stored data give it. */
  lemma SurvivorIdentity(rs: Records, order: seq<nat>, id: nat)
    requires QueryOrder(rs, order) && id in rs
    ensures var peers := Peers(rs, order, id); var s := Survivor(rs, peers); var first := rs[peers[0]];
            && Keyed(first) == s.(supporterName := first.supporterName, avatar := first.avatar,
                                  remark := first.remark, raw := first.raw)
            && s.recordKey == MigrationKey(s) == MigrationKey(rs[id])
            && s.account == rs[id].account
  {
    var peers := Peers(rs, order, id);
    MembersAre(rs, order, GroupOf(rs[id]));
    hide MigrationKey, MergeFields, Members, Before;
    var rest := RowsOf(rs, peers)[1..];
    assert peers[0] in peers;
    assert GroupOf(rs[peers[0]]) == GroupOf(rs[id]);
    MergedTexts(Keyed(rs[peers[0]]), rest);
    assert forall i {:trigger rest[i]} :: 0 <= i < |rest| ==> rest[i] == rs[peers[i + 1]] && peers[i + 1] in peers;
    SameMigrationKey(Keyed(rs[peers[0]]), rs[peers[0]]);
    assert forall i :: 0 <= i < |rest| ==> GroupOf(rest[i]) == GroupOf(rs[id]);
    SurvivorKeepsKey(Keyed(rs[peers[0]]), rest);
  }

  /** Of every group the earliest row remains, and nothing else does. */
  lemma EarliestRemains(rs: Records, order: seq<nat>, id: nat)
    requires QueryOrder(rs, order) && id in rs
    ensures var first := Peers(rs, order, id)[0];
            && first in MergedRecords(rs, order)
            && GroupOf(rs[first]) == GroupOf(rs[id])
            && (first == id || Before(rs, first, id))
            && (id in MergedRecords(rs, order) <==> first == id)
  {
    var g := GroupOf(rs[id]);
    var peers := Peers(rs, order, id);
    MembersAre(rs, order, g);
    MembersSorted(rs, order, g);
    assert peers[0] in peers;
    assert Peers(rs, order, peers[0]) == peers;
    var j :| 0 <= j < |peers| && peers[j] == id;
  }

  /** The migration leaves exactly one record for every (account, key), under the key a later
      collection run will compute for it, and every record it met is represented. */
  lemma OneRecordPerCharge(rs: Records, order: seq<nat>)
    requires QueryOrder(rs, order)
    ensures MergedRecords(rs, order).Keys <= rs.Keys
    ensures CanonicallyKeyed(MergedRecords(rs, order)) && UniquelyKeyed(MergedRecords(rs, order))
    ensures forall id :: id in rs ==> Represented(MergedRecords(rs, order), GroupOf(rs[id]))
  {
    assert MergedRecords(rs, order).Keys <= rs.Keys;
    KeysAreCanonical(rs, order);
    KeysAreUnique(rs, order);
    hide *;
    forall id | id in rs
      ensures Represented(MergedRecords(rs, order), GroupOf(rs[id]))
    {
      RepresentedAfter(rs, order, id);
    }
  }

  /** Every row has the key its stored data give it, and is not to be announced. */
  ghost predicate CanonicallyKeyed(rs: Records) {
    forall a :: a in rs ==> rs[a].recordKey == MigrationKey(rs[a]) && !rs[a].eligible
  }

  /** No two rows of an account share a record key. */
  ghost predicate UniquelyKeyed(rs: Records) {
    forall a, b :: a in rs && b in rs && a != b ==>
              Group(rs[a].account, rs[a].recordKey) != Group(rs[b].account, rs[b].recordKey)
  }

  ghost predicate Represented(rs: Records, g: Group) {
    exists a :: a in rs && rs[a].account == g.account && rs[a].recordKey == g.key
  }

  lemma KeysAreCanonical(rs: Records, order: seq<nat>)
    requires QueryOrder(rs, order)
    ensures CanonicallyKeyed(MergedRecords(rs, order))
  {
    var after := MergedRecords(rs, order);
    hide MergedRecords, MigrationKey, Peers, QueryOrder, GroupOf;
    forall a | a in after
      ensures after[a].recordKey == MigrationKey(after[a]) && !after[a].eligible
    {
      RecordAfter(rs, order, a);
    }
  }

  lemma KeysAreUnique(rs: Records, order: seq<nat>)
    requires QueryOrder(rs, order)
    ensures UniquelyKeyed(MergedRecords(rs, order))
  {
    var after := MergedRecords(rs, order);
    hide MergedRecords, MigrationKey, Peers, QueryOrder, GroupOf;
    forall a, b | a in after && b in after && a != b
      ensures Group(after[a].account, after[a].recordKey) != Group(after[b].account, after[b].recordKey)
    {
      RecordAfter(rs, order, a);
      RecordAfter(rs, order, b);
      if GroupOf(rs[a]) == GroupOf(rs[b]) {
        SamePeers(rs, order, a, b);
      }
    }
  }

  lemma RepresentedAfter(rs: Records, order: seq<nat>, id: nat)
    requires QueryOrder(rs, order) && id in rs
    ensures Represented(MergedRecords(rs, order), GroupOf(rs[id]))
  {
    hide MergedRecords, MigrationKey, Peers, Before;
    EarliestRemains(rs, order, id);
    RecordAfter(rs, order, Peers(rs, order, id)[0]);
  }

  lemma RecordAfter(rs: Records, order: seq<nat>, a: nat)
    requires QueryOrder(rs, order) && a in MergedRecords(rs, order)
    ensures forall i :: i in order <==> i in rs
    ensures a in rs && Peers(rs, order, a)[0] == a
    ensures var row := MergedRecords(rs, order)[a];
            !row.eligible && row.recordKey == MigrationKey(row) && Group(row.account, row.recordKey) == GroupOf(rs[a])
  {
    SurvivorIdentity(rs, order, a);
  }

  /** A record an earlier release made of an item, whatever key it then had. */
  predicate MadeFrom(r: ChargeRecord, user: UserId, account: AccountId, item: Item)
    requires item.Parses()
  {
    var built := BuildChargeRecord(user, account, item).value;
    r == built.(eventId := r.eventId, recordKey := r.recordKey, eligible := r.eligible, created := r.created)
  }

  /** After the migration the collector finds every such charge whose item's keys survive storage
      under the key it computes, so collecting the item again inserts nothing. */
  lemma CollectorFindsMigrated(rs: Records, order: seq<nat>, id: nat, user: UserId, account: AccountId, item: Item)
    requires QueryOrder(rs, order) && id in rs
    requires item.Parses() && KeysSurvive(item) && MadeFrom(rs[id], user, account, item)
    ensures Represented(MergedRecords(rs, order), Group(account, StableRecordKey(account, item)))
  {
    var built := BuildChargeRecord(user, account, item).value;
    KeysAgreeIff(user, account, item);
    SameMigrationKey(rs[id], built);
    hide MigrationKey, BuildChargeRecord;
    RepresentedAfter(rs, order, id);
  }

  lemma SameMigrationKey(r: ChargeRecord, q: ChargeRecord)
    requires r.raw == q.raw && r.account == q.account && r.supporterUid == q.supporterUid
    requires r.amount == q.amount && r.brokerage == q.brokerage && r.chargedAt == q.chargedAt
    ensures MigrationKey(r) == MigrationKey(q)
  {
  }

  lemma SamePeers(rs: Records, order: seq<nat>, a: nat, b: nat)
    requires (forall i :: i in order <==> i in rs) && a in rs && b in rs
    ensures GroupOf(rs[a]) == GroupOf(rs[b]) <==> Peers(rs, order, a) == Peers(rs, order, b)
  {
    MembersAre(rs, order, GroupOf(rs[a]));
    assert a in Peers(rs, order, a) && b in Peers(rs, order, b);
  }

  lemma OwnerIs(rs: Records, id: nat)
    requires DistinctCharges(rs) && id in rs
    ensures Owner(rs, ChargeKey(rs[id])) == Some(id)
  {
    hide ChargeKey;
  }

  /** A row whose event belongs to a record is among its group's events, and the one the group
      keeps belongs to the same group. */
  lemma GroupKeeps(rs: Records, os: Outboxes, order: seq<nat>, id: nat)
    requires (forall i :: i in order <==> i in rs) && DistinctCharges(rs) && KeysDistinct(os)
    requires id in os && Owner(rs, os[id].key).Some?
    ensures var peers := Peers(rs, order, Owner(rs, os[id].key).value);
            var kept := Canonical(IndexOf(os), os, RowsOf(rs, peers));
            && id in Candidates(IndexOf(os), RowsOf(rs, peers))
            && kept.Some?
            && Owner(rs, os[kept.value].key).Some?
            && Peers(rs, order, Owner(rs, os[kept.value].key).value) == peers
  {
    var r := Owner(rs, os[id].key).value;
    var peers := Peers(rs, order, r);
    var index := IndexOf(os);
    hide IndexOf, Canonical, Candidates, Peers, Owner, ChargeKey, MigrationKey, DistinctCharges, KeysDistinct;
    CandidateOwner(rs, peers, index, r, id);
    var kept := Canonical(index, os, RowsOf(rs, peers)).value;
    var q := OwnerOfCandidate(rs, peers, index, kept);
    OwnerIs(rs, q);
    PeersShared(rs, order, r, q);
  }

  lemma PeersShared(rs: Records, order: seq<nat>, r: nat, q: nat)
    requires (forall i :: i in order <==> i in rs) && r in rs && q in Peers(rs, order, r)
    ensures Peers(rs, order, q) == Peers(rs, order, r)
  {
    MembersAre(rs, order, GroupOf(rs[r]));
  }

  lemma CandidateOwner(rs: Records, peers: seq<nat>, index: map<EventKey, nat>, r: nat, id: nat)
    requires r in peers && forall i :: i in peers ==> i in rs
    requires ChargeKey(rs[r]) in index && index[ChargeKey(rs[r])] == id
    ensures id in Candidates(index, RowsOf(rs, peers))
  {
    hide ChargeKey, Candidates;
    var j :| 0 <= j < |peers| && peers[j] == r;
    CandidatesAre(index, RowsOf(rs, peers));
    assert RowsOf(rs, peers)[j] == rs[r];
  }

  lemma OwnerOfCandidate(rs: Records, peers: seq<nat>, index: map<EventKey, nat>, id: nat) returns (q: nat)
    requires (forall i :: i in peers ==> i in rs) && id in Candidates(index, RowsOf(rs, peers))
    ensures q in peers && ChargeKey(rs[q]) in index && index[ChargeKey(rs[q])] == id
  {
    hide ChargeKey, Candidates;
    var rows := RowsOf(rs, peers);
    CandidatesAre(index, rows);
    var i :| 0 <= i < |rows| && ChargeKey(rows[i]) in index && index[ChargeKey(rows[i])] == id;
    q := peers[i];
  }

  /** A group whose first row has an event keeps that one. */
  lemma FirstRowsOwnIsKept(rs: Records, os: Outboxes, peers: seq<nat>, id: nat)
    requires KeysDistinct(os) && id in os
    requires peers != [] && forall i :: i in peers ==> i in rs
    requires os[id].key == ChargeKey(rs[peers[0]])
    ensures Canonical(IndexOf(os), os, RowsOf(rs, peers)) == Some(id)
  {
    hide IndexOf, ChargeKey;
    assert RowsOf(rs, peers)[0] == rs[peers[0]];
  }

  /** What becomes of one outbox row: it is kept, under its group's key, or it points at the row
      that is; a row that belongs to no record is left alone. */
  lemma RowAfter(rs: Records, os: Outboxes, order: seq<nat>, id: nat)
    requires Upgradable(rs, os, order) && id in os
    ensures MergedOutbox(rs, os, order).Keys == os.Keys
    ensures Owner(rs, os[id].key).None? ==> MergedOutbox(rs, os, order)[id] == os[id]
    ensures Owner(rs, os[id].key).Some? ==>
              var key := ChargeKey(rs[Peers(rs, order, Owner(rs, os[id].key).value)[0]]);
              var row := MergedOutbox(rs, os, order)[id];
              && (row.mergedInto.None? ==> row == os[id].(key := key))
              && (row.mergedInto.Some? ==>
                    var t := row.mergedInto.value;
                    && row == os[id].(status := EvMerged, mergedInto := Some(t)) && row.key != key
                    && t in os && MergedOutbox(rs, os, order)[t] == os[t].(key := key))
  {
    hide Candidates, Members, ChargeKey, MigrationKey, Peers, RowsOf, IndexOf, Canonical;
    if Owner(rs, os[id].key).Some? {
      GroupKeeps(rs, os, order, id);
      var peers := Peers(rs, order, Owner(rs, os[id].key).value);
      if os[id].key == ChargeKey(rs[peers[0]]) {
        FirstRowsOwnIsKept(rs, os, peers, id);
      }
    }
  }

  /** By creation, then by id. */
  predicate EventBefore(os: Outboxes, a: nat, b: nat)
    requires a in os && b in os
  {
    os[a].created < os[b].created || (os[a].created == os[b].created && a < b)
  }

  /** The key of the earliest of all records of a record's charge. */
  ghost predicate IsFirstKey(rs: Records, i: nat, k: EventKey)
    requires i in rs
  {
    exists f :: f in rs && GroupOf(rs[f]) == GroupOf(rs[i]) && k == ChargeKey(rs[f])
                && forall g :: g in rs && GroupOf(rs[g]) == GroupOf(rs[i]) && g != f ==> Before(rs, f, g)
  }

  /** The event of another record of the same charge. */
  ghost predicate IsSibling(rs: Records, os: Outboxes, i: nat, t: nat)
    requires i in rs
  {
    t in os && exists j :: j in rs && GroupOf(rs[j]) == GroupOf(rs[i]) && os[t].key == ChargeKey(rs[j])
  }

  /** Which event of a charge is the one to keep: the earliest record's own if it has one, and
      otherwise the earliest of all. */
  ghost predicate IsKeeper(rs: Records, os: Outboxes, i: nat, id: nat)
    requires i in rs && id in os
  {
    if exists t :: t in os && IsFirstKey(rs, i, os[t].key) then IsFirstKey(rs, i, os[id].key)
    else forall t :: IsSibling(rs, os, i, t) && t != id ==> EventBefore(os, id, t)
  }

  lemma FirstKeyIs(rs: Records, order: seq<nat>, i: nat, k: EventKey)
    requires QueryOrder(rs, order) && i in rs
    ensures Peers(rs, order, i)[0] in rs
    ensures IsFirstKey(rs, i, k) <==> k == ChargeKey(rs[Peers(rs, order, i)[0]])
  {
    hide GroupOf, ChargeKey, Members, Peers, MergedRecords;
    var first := Peers(rs, order, i)[0];
    EarliestRemains(rs, order, i);
    forall g | g in rs && GroupOf(rs[g]) == GroupOf(rs[i]) && g != first
      ensures Before(rs, first, g)
    {
      SamePeers(rs, order, i, g);
      EarliestRemains(rs, order, g);
    }
  }

  lemma SiblingsAre(rs: Records, os: Outboxes, order: seq<nat>, i: nat, t: nat)
    requires QueryOrder(rs, order) && KeysDistinct(os) && i in rs
    ensures t in Candidates(IndexOf(os), RowsOf(rs, Peers(rs, order, i))) <==> IsSibling(rs, os, i, t)
  {
    hide GroupOf, ChargeKey, Candidates, Before;
    var peers, index := Peers(rs, order, i), IndexOf(os);
    MembersAre(rs, order, GroupOf(rs[i]));
    hide Members;
    if t in Candidates(index, RowsOf(rs, peers)) {
      var q := OwnerOfCandidate(rs, peers, index, t);
      assert q in rs && GroupOf(rs[q]) == GroupOf(rs[i]) && os[t].key == ChargeKey(rs[q]);
    }
    if IsSibling(rs, os, i, t) {
      var j :| j in rs && GroupOf(rs[j]) == GroupOf(rs[i]) && os[t].key == ChargeKey(rs[j]);
      assert j in peers;
      CandidateOwner(rs, peers, index, j, t);
    }
  }

  /** Of a charge's events the one to keep stays unmerged, and no other does. */
  lemma KeptIff(rs: Records, os: Outboxes, order: seq<nat>, id: nat, i: nat)
    requires Upgradable(rs, os, order) && id in os && i in rs && os[id].key == ChargeKey(rs[i])
    ensures id in MergedOutbox(rs, os, order)
    ensures MergedOutbox(rs, os, order)[id].mergedInto.None? <==> IsKeeper(rs, os, i, id)
  {
    OwnerIs(rs, i);
    GroupKeeps(rs, os, order, id);
    var peers := Peers(rs, order, i);
    var rows := RowsOf(rs, peers);
    var kept := Canonical(IndexOf(os), os, rows).value;
    MergedRowIs(rs, os, order, id, i, kept);
    KeeperIs(rs, os, order, i, id);
    hide MergedOutbox, Canonical, Owner, ChargeKey, Peers, IsKeeper;
  }

  /** What becomes of one event of a charge: the one to keep gets the earliest record's key and stays as
      it is, any other is marked as merged into it. */
  ghost predicate EventSettled(rs: Records, os: Outboxes, now: Outboxes, i: nat, id: nat)
    requires i in rs && id in os
  {
    && id in now
    && (if IsKeeper(rs, os, i, id) then now[id] == os[id].(key := now[id].key) && IsFirstKey(rs, i, now[id].key)
        else
          && now[id].mergedInto.Some? && now[id] == os[id].(status := EvMerged, mergedInto := now[id].mergedInto)
          && now[id].mergedInto.value in os && IsSibling(rs, os, i, now[id].mergedInto.value)
          && IsKeeper(rs, os, i, now[id].mergedInto.value))
  }

  lemma EventIsSettled(rs: Records, os: Outboxes, order: seq<nat>, id: nat, i: nat)
    requires Upgradable(rs, os, order) && id in os && i in rs && os[id].key == ChargeKey(rs[i])
    ensures EventSettled(rs, os, MergedOutbox(rs, os, order), i, id)
  {
    hide IsKeeper, IsFirstKey, IsSibling, MergedOutbox, Canonical, Candidates, ChargeKey, GroupOf, Members, Before;
    hide KeysDistinct, DistinctCharges, Peers, RowsOf, IndexOf;
    KeptIff(rs, os, order, id, i);
    RowAfter(rs, os, order, id);
    OwnerIs(rs, i);
    FirstKeyIs(rs, order, i, MergedOutbox(rs, os, order)[id].key);
    var row := MergedOutbox(rs, os, order)[id];
    if row.mergedInto.Some? {
      TargetIsKeeper(rs, os, order, id, i, row.mergedInto.value);
    }
  }

  lemma TargetIsKeeper(rs: Records, os: Outboxes, order: seq<nat>, id: nat, i: nat, t: nat)
    requires Upgradable(rs, os, order) && id in os && i in rs && os[id].key == ChargeKey(rs[i])
    requires id in MergedOutbox(rs, os, order) && MergedOutbox(rs, os, order)[id].mergedInto == Some(t)
    ensures t in os && IsSibling(rs, os, i, t) && IsKeeper(rs, os, i, t)
  {
    hide IsKeeper, IsSibling, Canonical, Candidates, ChargeKey, GroupOf, Members, Before;
    OwnerIs(rs, i);
    GroupKeeps(rs, os, order, id);
    var peers := Peers(rs, order, i);
    var kept := Canonical(IndexOf(os), os, RowsOf(rs, peers)).value;
    MergedRowIs(rs, os, order, id, i, kept);
    hide MergedOutbox, Peers, RowsOf, IndexOf, KeysDistinct, DistinctCharges;
    SiblingsAre(rs, os, order, i, t);
    var q := Owner(rs, os[t].key).value;
    SamePeersSameGroup(rs, order, i, q);
    KeeperIs(rs, os, order, q, t);
    SameKeeper(rs, os, i, q, t);
  }

  lemma SamePeersSameGroup(rs: Records, order: seq<nat>, a: nat, b: nat)
    requires (forall i :: i in order <==> i in rs) && a in rs && b in rs && Peers(rs, order, a) == Peers(rs, order, b)
    ensures GroupOf(rs[a]) == GroupOf(rs[b])
  {
    SamePeers(rs, order, a, b);
    hide GroupOf;
  }

  /** Records of one charge have one event to keep. */
  lemma SameKeeper(rs: Records, os: Outboxes, a: nat, b: nat, id: nat)
    requires a in rs && b in rs && GroupOf(rs[a]) == GroupOf(rs[b]) && id in os
    ensures IsKeeper(rs, os, a, id) <==> IsKeeper(rs, os, b, id)
  {
    hide GroupOf, ChargeKey, Before, EventBefore;
    assert forall k :: IsFirstKey(rs, a, k) == IsFirstKey(rs, b, k);
    assert forall t :: IsSibling(rs, os, a, t) == IsSibling(rs, os, b, t);
    hide IsFirstKey, IsSibling;
  }

  lemma KeeperIs(rs: Records, os: Outboxes, order: seq<nat>, i: nat, id: nat)
    requires QueryOrder(rs, order) && DistinctCharges(rs) && KeysDistinct(os)
    requires id in os && i in rs && os[id].key == ChargeKey(rs[i])
    ensures Canonical(IndexOf(os), os, RowsOf(rs, Peers(rs, order, i))) == Some(id) <==> IsKeeper(rs, os, i, id)
  {
    var peers := Peers(rs, order, i);
    var rows := RowsOf(rs, peers);
    var cands := Candidates(IndexOf(os), rows);
    var key := ChargeKey(rs[peers[0]]);
    assert rows[0] == rs[peers[0]] by {
      assert peers[0] in peers;
    }
    hide GroupOf, ChargeKey, Candidates, Before, Members, Peers, RowsOf, IsFirstKey, IsSibling, DistinctCharges;
    hide EarliestOf, Earlier, EventBefore;
    forall k
      ensures IsFirstKey(rs, i, k) <==> k == key
    {
      FirstKeyIs(rs, order, i, k);
    }
    forall t
      ensures t in cands <==> IsSibling(rs, os, i, t)
    {
      SiblingsAre(rs, os, order, i, t);
    }
    OwnSibling(rs, os, i, id);
    EarliestIff(os, cands, id);
    if t :| t in os && os[t].key == key {
      assert IndexOf(os)[key] == t;
    } else {
      assert key !in IndexOf(os);
    }
  }

  lemma EarliestIff(os: Outboxes, ids: seq<nat>, id: nat)
    requires id in ids && forall t :: t in ids ==> t in os
    ensures EarliestOf(os, ids) == id <==> forall t :: t in ids && t != id ==> EventBefore(os, id, t)
  {
    hide EarliestOf;
    var r := EarliestOf(os, ids);
    if r != id {
      assert Earlier(os, r, id) && r in ids;
    }
  }

  lemma OwnSibling(rs: Records, os: Outboxes, i: nat, id: nat)
    requires id in os && i in rs && os[id].key == ChargeKey(rs[i])
    ensures IsSibling(rs, os, i, id)
  {
  }

  /** No event is deleted; dedupe keys stay pairwise distinct; a merged event points straight at
      an unmerged one, so there are no chains, and that one carries the key of the group's record. */
  lemma NoOutboxIsLost(rs: Records, os: Outboxes, order: seq<nat>)
    requires Upgradable(rs, os, order)
    ensures var after := MergedOutbox(rs, os, order);
            && after.Keys == os.Keys
            && KeysDistinct(after)
            && (forall id :: id in after ==> (after[id].status == EvMerged <==> after[id].mergedInto.Some?))
            && (forall id :: id in after && after[id].mergedInto.Some? ==>
                               && after[id].mergedInto.value in after
                               && after[after[id].mergedInto.value].mergedInto.None?)
  {
    var after := MergedOutbox(rs, os, order);
    assert after.Keys == os.Keys;
    hide MergedOutbox, Candidates, Members, MigrationKey, RowsOf, IndexOf, Canonical;
    forall id | id in after
      ensures after[id].status == EvMerged <==> after[id].mergedInto.Some?
      ensures after[id].mergedInto.Some? ==> after[id].mergedInto.value in after
                                             && after[after[id].mergedInto.value].mergedInto.None?
    {
      RowAfter(rs, os, order, id);
    }
    forall a, b | a in after && b in after && a != b
      ensures after[a].key != after[b].key
    {
      KeysStayDistinct(rs, os, order, a, b);
    }
  }

  lemma KeysStayDistinct(rs: Records, os: Outboxes, order: seq<nat>, a: nat, b: nat)
    requires Upgradable(rs, os, order) && a in os && b in os && a != b
    ensures MergedOutbox(rs, os, order)[a].key != MergedOutbox(rs, os, order)[b].key
  {
    hide MergedOutbox, Candidates, Members, MigrationKey, ChargeKey, RowsOf, IndexOf, Canonical, Peers;
    RowAfter(rs, os, order, a);
    RowAfter(rs, os, order, b);
    match (Owner(rs, os[a].key), Owner(rs, os[b].key)) {
      case (None, None) =>
      case (None, Some(r)) =>
        FirstOfPeers(rs, order, r);
        assert ChargeKey(rs[Peers(rs, order, r)[0]]) != os[a].key;
        assert os[a].key != os[b].key;
      case (Some(r), None) =>
        FirstOfPeers(rs, order, r);
        assert ChargeKey(rs[Peers(rs, order, r)[0]]) != os[b].key;
      case (Some(r), Some(s)) =>
        FirstOfPeers(rs, order, r);
        FirstOfPeers(rs, order, s);
        if Peers(rs, order, r) == Peers(rs, order, s) {
          KeptIsUnique(rs, os, order, a, b);
        } else {
          var first, second := Peers(rs, order, r)[0], Peers(rs, order, s)[0];
          assert first != second && first != s && second != r;
          assert ChargeKey(rs[first]) != ChargeKey(rs[second]);
          assert ChargeKey(rs[first]) != ChargeKey(rs[s]) == os[b].key;
          assert ChargeKey(rs[second]) != ChargeKey(rs[r]) == os[a].key;
          assert os[a].key != os[b].key;
        }
    }
  }

  lemma FirstOfPeers(rs: Records, order: seq<nat>, id: nat)
    requires QueryOrder(rs, order) && id in rs
    ensures Peers(rs, order, id)[0] in rs
    ensures Peers(rs, order, Peers(rs, order, id)[0]) == Peers(rs, order, id)
  {
    MembersAre(rs, order, GroupOf(rs[id]));
    assert Peers(rs, order, id)[0] in Peers(rs, order, id);
  }

  /** A group keeps one event. */
  lemma KeptIsUnique(rs: Records, os: Outboxes, order: seq<nat>, a: nat, b: nat)
    requires Upgradable(rs, os, order) && a in os && b in os && a != b
    requires Owner(rs, os[a].key).Some? && Owner(rs, os[b].key).Some?
    requires Peers(rs, order, Owner(rs, os[a].key).value) == Peers(rs, order, Owner(rs, os[b].key).value)
    ensures MergedOutbox(rs, os, order)[a].mergedInto.Some? || MergedOutbox(rs, os, order)[b].mergedInto.Some?
  {
    hide Candidates, Members, ChargeKey, MigrationKey, Peers, RowsOf, IndexOf, Canonical;
    GroupKeeps(rs, os, order, a);
    GroupKeeps(rs, os, order, b);
  }

  /** If any row of a group had an event, the record that remains has one, under its own key and
      not merged: what later reconciliation looks up is there. */
  lemma SurvivorKeepsAnEvent(rs: Records, os: Outboxes, order: seq<nat>, id: nat)
    requires Upgradable(rs, os, order) && id in os && Owner(rs, os[id].key).Some?
    ensures var first := Peers(rs, order, Owner(rs, os[id].key).value)[0];
            && first in MergedRecords(rs, order)
            && exists t :: t in os && MergedOutbox(rs, os, order)[t].mergedInto.None?
                           && MergedOutbox(rs, os, order)[t].key == ChargeKey(MergedRecords(rs, order)[first])
  {
    var r := Owner(rs, os[id].key).value;
    var first := Peers(rs, order, r)[0];
    hide MergedOutbox, Candidates, Members, MigrationKey, RowsOf, IndexOf, Canonical, Survivor, Peers;
    EarliestRemains(rs, order, r);
    FirstOfPeers(rs, order, r);
    SurvivorIdentity(rs, order, first);
    assert ChargeKey(MergedRecords(rs, order)[first]) == ChargeKey(rs[first]);
    RowAfter(rs, os, order, id);
    var row := MergedOutbox(rs, os, order)[id];
    if row.mergedInto.Some? {
      assert MergedOutbox(rs, os, order)[row.mergedInto.value].key == ChargeKey(rs[first]);
    }
  }
}
