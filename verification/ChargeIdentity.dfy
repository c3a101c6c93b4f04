/** When two charges are the same: what the two keys tell apart, said of the items and rows themselves. */
module ChargeIdentity {
  import opened Common
  import opened Charges

  const BLANKS: set<char> :=
    {' ', '\t', '\n', '\U{b}', '\U{c}', '\r', '\U{1c}', '\U{1d}', '\U{1e}', '\U{1f}'}

  ghost predicate Blank(s: string) {
    forall i :: 0 <= i < |s| ==> s[i] in BLANKS
  }

  /** A text reads `t` between blanks, `t` being neither empty nor blank at an end. */
  ghost predicate Reads(s: string, t: string) {
    && t != "" && t[0] !in BLANKS && t[|t| - 1] !in BLANKS
    && exists left, right :: Blank(left) && Blank(right) && s == left + t + right
  }

  /** A field that is passed over: not there, null, or the empty text. */
  predicate Absent(v: Option<Value>) {
    v == None || v == Some(Null) || v == Some(Text(""))
  }

  /** The first of three fields that is not passed over reads `t`. */
  ghost predicate FirstReads(id: Option<Value>, order: Option<Value>, trade: Option<Value>, t: string) {
    || (!Absent(id) && Reads(id.value.Str(), t))
    || (Absent(id) && !Absent(order) && Reads(order.value.Str(), t))
    || (Absent(id) && Absent(order) && !Absent(trade) && Reads(trade.value.Str(), t))
  }

  ghost predicate ItemNames(item: Item, t: string) {
    FirstReads(Get(item.fields, Id), Get(item.fields, OrderNo), Get(item.fields, TradeNo), t)
  }

  /** The same of a stored row's raw data, whose fields are texts. */
  ghost predicate RowNames(r: ChargeRecord, t: string) {
    FirstReads(RawText(r, Id), RawText(r, OrderNo), RawText(r, TradeNo), t)
  }

  function RawText(r: ChargeRecord, f: Field): Option<Value> {
    match Get(r.raw, f)
    case None => None
    case Some(t) => Some(Text(t))
  }

  /** The supporter id as an item gives it: `mid`, or `uid` where there is no `mid`, or nothing. */
  predicate ItemSupporter(item: Item, t: string) {
    || (Mid in item.fields && item.fields[Mid].Str() == t)
    || (Mid !in item.fields && Uid in item.fields && item.fields[Uid].Str() == t)
    || (Mid !in item.fields && Uid !in item.fields && t == "")
  }

  /** The supporter id as a row gives it: the first that is not empty of `mid`, `uid` and its column. */
  predicate RowSupporter(r: ChargeRecord, t: string) {
    if Get(r.raw, Mid) !in {None, Some("")} then Get(r.raw, Mid) == Some(t)
    else if Get(r.raw, Uid) !in {None, Some("")} then Get(r.raw, Uid) == Some(t)
    else r.supporterUid == t
  }

  /** Two items of an account name one order, or name none and agree in all that is told of them. */
  ghost predicate SameCharge(i1: Item, i2: Item) {
    || (exists t :: ItemNames(i1, t) && ItemNames(i2, t))
    || (&& (forall t :: !ItemNames(i1, t) && !ItemNames(i2, t))
        && (exists u :: ItemSupporter(i1, u) && ItemSupporter(i2, u))
        && i1.amount == i2.amount && i1.brokerage == i2.brokerage && i1.chargedAt == i2.chargedAt)
  }

  ghost predicate SameStored(r1: ChargeRecord, r2: ChargeRecord) {
    || (exists t :: RowNames(r1, t) && RowNames(r2, t))
    || (&& (forall t :: !RowNames(r1, t) && !RowNames(r2, t))
        && (exists u :: RowSupporter(r1, u) && RowSupporter(r2, u))
        && r1.amount == r2.amount && r1.brokerage == r2.brokerage && r1.chargedAt == r2.chargedAt)
  }

  // ---------------------------------------------------------------- stripping

  lemma SpacesAreBlanks(c: char)
    ensures IsSpace(c) <==> c in BLANKS
  {
  }

  lemma MoreBlanks(s: string, c: char)
    requires Blank(s) && c in BLANKS
    ensures Blank([c] + s) && Blank(s + [c])
  {
  }

  lemma {:induction false} LeftStripped(s: string) returns (left: string)
    ensures Blank(left) && s == left + StripLeft(s)
    ensures StripLeft(s) != "" ==> StripLeft(s)[0] !in BLANKS
  {
    left := "";
    if s != "" {
      SpacesAreBlanks(s[0]);
      if IsSpace(s[0]) {
        var rest := LeftStripped(s[1..]);
        left := [s[0]] + rest;
        MoreBlanks(rest, s[0]);
        hide Blank;
        assert s == [s[0]] + s[1..];
      }
    }
  }

  lemma {:induction false} RightStripped(s: string) returns (right: string)
    ensures Blank(right) && s == StripRight(s) + right
    ensures StripRight(s) != "" ==> StripRight(s)[|StripRight(s)| - 1] !in BLANKS
  {
    right := "";
    if s != "" {
      var n := |s| - 1;
      SpacesAreBlanks(s[n]);
      if IsSpace(s[n]) {
        var rest := RightStripped(s[..n]);
        right := rest + [s[n]];
        MoreBlanks(rest, s[n]);
        hide Blank;
        assert s == s[..n] + [s[n]];
        assert s == StripRight(s[..n]) + rest + [s[n]];
      }
    }
  }

  /** Where the blanks around what a text reads end and begin. */
  lemma ReadAt(s: string, left: string, t: string, right: string)
    requires Blank(left) && Blank(right) && s == left + t + right
    ensures forall i :: 0 <= i < |left| ==> s[i] in BLANKS
    ensures forall i :: |left| + |t| <= i < |s| ==> s[i] in BLANKS
    ensures forall i :: 0 <= i < |t| ==> s[|left| + i] == t[i]
  {
    assert forall i :: 0 <= i < |left| ==> s[i] == left[i];
    assert forall i :: |left| + |t| <= i < |s| ==> s[i] == right[i - |left| - |t|];
  }

  /** Nothing else is read between blanks. */
  lemma ReadsOnce(s: string, t: string, u: string)
    requires Reads(s, t) && Reads(s, u)
    ensures t == u
  {
    var l1, r1 :| Blank(l1) && Blank(r1) && s == l1 + t + r1;
    var l2, r2 :| Blank(l2) && Blank(r2) && s == l2 + u + r2;
    ReadAt(s, l1, t, r1);
    ReadAt(s, l2, u, r2);
    assert s[|l1| + 0] == t[0] && s[|l2| + 0] == u[0];
    assert s[|l1| + (|t| - 1)] == t[|t| - 1] && s[|l2| + (|u| - 1)] == u[|u| - 1];
    assert |l1| == |l2| && |t| == |u|;
    assert t == s[|l1|..|l1| + |t|] && u == s[|l2|..|l2| + |u|];
  }

  /** Stripping a text gives what it reads, and nothing where it reads nothing. */
  lemma StripReads(s: string, t: string)
    ensures Reads(s, t) <==> t != "" && Strip(s) == t
  {
    var left := LeftStripped(s);
    var right := RightStripped(StripLeft(s));
    var u := Strip(s);
    assert s == left + u + right;
    if u != "" {
      assert u[0] == StripLeft(s)[0];
      assert Reads(s, u);
      if Reads(s, t) {
        ReadsOnce(s, t, u);
      }
    } else {
      assert s == left + right;
      BlankReadsNothing(s, t, left, right);
    }
  }

  lemma BlankReadsNothing(s: string, t: string, left: string, right: string)
    requires Blank(left) && Blank(right) && s == left + right
    ensures !Reads(s, t)
  {
    forall l, r | Blank(l) && Blank(r) && s == l + t + r
      ensures t == "" || t[0] in BLANKS
    {
      ReadAt(s, l, t, r);
      ReadAt(s, left, "", right);
      assert t != "" ==> s[|l| + 0] == t[0];
    }
  }

  lemma SourceReads(id: Option<Value>, order: Option<Value>, trade: Option<Value>, t: string)
    ensures FirstReads(id, order, trade, t) <==> t != "" && SourceId(id, order, trade) == Some(t)
  {
    hide Reads, Strip;
    if id.Some? { StripReads(id.value.Str(), t); }
    if order.Some? { StripReads(order.value.Str(), t); }
    if trade.Some? { StripReads(trade.value.Str(), t); }
  }

  // ---------------------------------------------------------------- the keys

  lemma ItemSourceIs(item: Item)
    ensures Identifies(ItemSource(item)) ==> ItemNames(item, ItemSource(item).value)
    ensures forall t :: ItemNames(item, t) ==> ItemSource(item) == Some(t) && Identifies(ItemSource(item))
  {
    hide FirstReads, SourceId;
    forall t
      ensures ItemNames(item, t) <==> t != "" && ItemSource(item) == Some(t)
    {
      SourceReads(Get(item.fields, Id), Get(item.fields, OrderNo), Get(item.fields, TradeNo), t);
    }
  }

  lemma RowSourceIs(r: ChargeRecord)
    ensures Identifies(StoredSource(r.raw)) ==> RowNames(r, StoredSource(r.raw).value)
    ensures forall t :: RowNames(r, t) ==> StoredSource(r.raw) == Some(t) && Identifies(StoredSource(r.raw))
  {
    hide FirstReads, SourceId;
    forall t
      ensures RowNames(r, t) <==> t != "" && StoredSource(r.raw) == Some(t)
    {
      SourceReads(RawText(r, Id), RawText(r, OrderNo), RawText(r, TradeNo), t);
    }
  }

  /** The collector gives two items one key exactly when they are of one account and the same charge. */
  lemma SameKeyIff(a1: AccountId, i1: Item, a2: AccountId, i2: Item)
    requires i1.Parses() && i2.Parses()
    ensures StableRecordKey(a1, i1) == StableRecordKey(a2, i2) <==> a1 == a2 && SameCharge(i1, i2)
  {
    ItemSourceIs(i1);
    ItemSourceIs(i2);
    hide ItemNames, ItemSource;
    assert ItemSupporter(i1, i1.GetOr(Mid, Uid)) && ItemSupporter(i2, i2.GetOr(Mid, Uid));
    assert forall u :: ItemSupporter(i1, u) ==> u == i1.GetOr(Mid, Uid);
    assert forall u :: ItemSupporter(i2, u) ==> u == i2.GetOr(Mid, Uid);
    hide ItemSupporter;
  }

  /** And so does the migration with two stored rows. */
  lemma SameMigrationKeyIff(r1: ChargeRecord, r2: ChargeRecord)
    ensures MigrationKey(r1) == MigrationKey(r2) <==> r1.account == r2.account && SameStored(r1, r2)
  {
    RowSourceIs(r1);
    RowSourceIs(r2);
    hide RowNames, StoredSource;
    assert RowSupporter(r1, StoredUid(r1)) && RowSupporter(r2, StoredUid(r2));
    assert forall u :: RowSupporter(r1, u) ==> u == StoredUid(r1);
    assert forall u :: RowSupporter(r2, u) ==> u == StoredUid(r2);
    hide RowSupporter;
  }

  /** A text of an item: the first of two fields that is there, whatever it holds, or nothing. */
  predicate ItemText(item: Item, first: Field, second: Field, t: string) {
    || (first in item.fields && item.fields[first].Str() == t)
    || (first !in item.fields && second in item.fields && item.fields[second].Str() == t)
    || (first !in item.fields && second !in item.fields && t == "")
  }

  /** A record holds what its item says: who gave how much, when and with which words; and of the item's
      listed fields the first thousand characters. */
  lemma RecordTells(user: UserId, account: AccountId, item: Item)
    requires item.Parses()
    ensures BuildChargeRecord(user, account, item).Some?
    ensures var r := BuildChargeRecord(user, account, item).value;
            && r.user == user && r.account == account && r.eventId == r.recordKey == StableRecordKey(account, item)
            && ItemSupporter(item, r.supporterUid) && ItemText(item, Name, Nickname, r.supporterName)
            && ItemText(item, Avatar, Avatar, r.avatar) && ItemText(item, Remark, Remark, r.remark)
            && item.amount == Some(r.amount) && item.brokerage == Some(r.brokerage) && item.chargedAt == Some(r.chargedAt)
            && (forall f :: f in r.raw <==> f in item.fields && !f.Unlisted?)
            && (forall f :: f in r.raw ==> r.raw[f] <= item.fields[f].Str()
                                           && |r.raw[f]| == if |item.fields[f].Str()| > 1000 then 1000
                                                            else |item.fields[f].Str()|)
  {
    hide StableRecordKey;
  }

  /** A name that tells nothing: only blanks, or the supporter id between blanks. */
  lemma UidNameIff(name: string, uid: string)
    ensures IsUidName(name, uid) <==> Blank(name) || Reads(name, uid)
  {
    StripReads(name, uid);
    StripReads(name, Strip(name));
    var left := LeftStripped(name);
    var right := RightStripped(StripLeft(name));
    assert name == left + Strip(name) + right;
    if Strip(name) == "" {
      assert name == left + right;
    } else {
      BlankIsBlank(name);
    }
    hide Strip, Reads;
  }

  lemma BlankIsBlank(s: string)
    requires Reads(s, Strip(s))
    ensures !Blank(s)
  {
    var l, r :| Blank(l) && Blank(r) && s == l + Strip(s) + r;
    ReadAt(s, l, Strip(s), r);
    assert s[|l| + 0] == Strip(s)[0];
  }
}
