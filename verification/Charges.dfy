/**
 Charge items as the upstream feed presents them, the records built from them, and the two
 ways a record's identity is computed: at collection time from the item, and by the
 canonical-key migration from the stored row.
 */
module Charges {
  import opened Common

  /** The item fields copied into a record's raw data, and everything else. */
  datatype Field =
    | Id | OrderNo | TradeNo | Mid | Uid | Name | Nickname | Avatar
    | OriginalThirdCoin | Amount | Brokerage | Remark | Ctime | ChargeTime
    | Unlisted(name: string)

  /** A JSON value, reduced to what `str` and the emptiness tests can see. */
  datatype Value = Null | Text(text: string) | Other(repr: string)
  {
    predicate Valid() {
      Other? ==> repr != ""
    }

    function Str(): string {
      match this
      case Null => "None"
      case Text(t) => t
      case Other(r) => r
    }
  }

  /** An upstream item. The last three components are what parsing the time, the amount and
      the brokerage yields, with `None` where the parser raises. Money is in hundredths. */
  datatype Item = Item(
    fields: map<Field, Value>,
    chargedAt: Option<Time>,
    amount: Option<int>,
    brokerage: Option<int>)
  {
    ghost predicate Valid() {
      forall f :: f in fields ==> fields[f].Valid()
    }

    predicate Parses() {
      chargedAt.Some? && amount.Some? && brokerage.Some?
    }

    function GetOr(first: Field, second: Field): string {
      if first in fields then fields[first].Str()
      else if second in fields then fields[second].Str()
      else ""
    }
  }

  /** A record key before hashing. SHA-256 is taken to be injective, so the text that is
      hashed stands for the digest; `Legacy` covers digests made by older releases. */
  datatype Digest =
    | BySource(account: AccountId, source: string)
    | ByContent(account: AccountId, uid: string, amount: int, brokerage: int, chargedAt: Time)
    | Legacy(serial: nat)

  datatype ChargeRecord = ChargeRecord(
    user: UserId,
    account: AccountId,
    eventId: Digest,
    recordKey: Digest,
    eligible: bool,
    supporterUid: string,
    supporterName: string,
    avatar: string,
    amount: int,
    brokerage: int,
    remark: string,
    chargedAt: Time,
    raw: map<Field, string>,
    created: Time)

  predicate IsSpace(c: char) {
    c == ' ' || '\t' <= c <= '\r' || '\U{1c}' <= c <= '\U{1f}'
  }

  function StripLeft(s: string): string {
    if s != "" && IsSpace(s[0]) then StripLeft(s[1..]) else s
  }

  function StripRight(s: string): string {
    if s != "" && IsSpace(s[|s| - 1]) then StripRight(s[..|s| - 1]) else s
  }

  function Strip(s: string): string {
    StripRight(StripLeft(s))
  }

  const RAW_LIMIT := 1000

  function Truncate(s: string): string {
    if |s| <= RAW_LIMIT then s else s[..RAW_LIMIT]
  }

  /** The first of the three order identifiers that is neither absent, null nor empty. */
  function SourceId(id: Option<Value>, order: Option<Value>, trade: Option<Value>): Option<string> {
    if Usable(id) then Some(Strip(id.value.Str()))
    else if Usable(order) then Some(Strip(order.value.Str()))
    else if Usable(trade) then Some(Strip(trade.value.Str()))
    else None
  }

  predicate Usable(v: Option<Value>) {
    v.Some? && v.value != Null && v.value != Text("")
  }

  function ItemSource(item: Item): Option<string> {
    SourceId(Get(item.fields, Id), Get(item.fields, OrderNo), Get(item.fields, TradeNo))
  }

  function StoredText(raw: map<Field, string>, f: Field): Option<Value> {
    if f in raw then Some(Text(raw[f])) else None
  }

  function StoredSource(raw: map<Field, string>): Option<string> {
    SourceId(StoredText(raw, Id), StoredText(raw, OrderNo), StoredText(raw, TradeNo))
  }

  /** The collector's key: the order identifier if there is one, else the charge's content. */
  function StableRecordKey(account: AccountId, item: Item): Digest
    requires item.Parses()
  {
    var source := ItemSource(item);
    if source.Some? && source.value != "" then BySource(account, source.value)
    else ByContent(account, item.GetOr(Mid, Uid), item.amount.value, item.brokerage.value, item.chargedAt.value)
  }

  function RawData(item: Item): map<Field, string> {
    map f | f in item.fields && !f.Unlisted? :: Truncate(item.fields[f].Str())
  }

  /** The record the collector builds for an item, not yet stored: eligibility and creation
      time are set at insertion. `None` where building raises. */
  function BuildChargeRecord(user: UserId, account: AccountId, item: Item): Option<ChargeRecord> {
    if !item.Parses() then None
    else
      var key := StableRecordKey(account, item);
      Some(ChargeRecord(
             user, account, key, key, true,
             item.GetOr(Mid, Uid), item.GetOr(Name, Nickname), item.GetOr(Avatar, Avatar),
             item.amount.value, item.brokerage.value, item.GetOr(Remark, Remark),
             item.chargedAt.value, RawData(item), 0))
  }

  predicate IsUidName(name: string, uid: string) {
    Strip(name) == "" || Strip(name) == uid
  }

  /** Keys missing or empty in `mine` are taken from `theirs`. */
  function MergeRaw(mine: map<Field, string>, theirs: map<Field, string>): map<Field, string> {
    mine + (map f | f in theirs && (f !in mine || mine[f] == "") :: theirs[f])
  }

  /** A stored record after the collector sees the same charge again. */
  function Enrich(existing: ChargeRecord, incoming: ChargeRecord): ChargeRecord {
    existing.(
    supporterName :=
      if IsUidName(existing.supporterName, existing.supporterUid)
         && !IsUidName(incoming.supporterName, incoming.supporterUid)
      then incoming.supporterName else existing.supporterName,
    avatar := if existing.avatar == "" then incoming.avatar else existing.avatar,
    remark := if existing.remark == "" then incoming.remark else existing.remark,
    raw := MergeRaw(existing.raw, incoming.raw))
  }

  /** The key the migration computes from a stored row. */
  function MigrationKey(r: ChargeRecord): Digest {
    var source := StoredSource(r.raw);
    if source.Some? && source.value != "" then BySource(r.account, source.value)
    else ByContent(r.account, StoredUid(r), r.amount, r.brokerage, r.chargedAt)
  }

  function StoredUid(r: ChargeRecord): string {
    if Mid in r.raw && r.raw[Mid] != "" then r.raw[Mid]
    else if Uid in r.raw && r.raw[Uid] != "" then r.raw[Uid]
    else r.supporterUid
  }

  /** A field's value once it has been stored: as text, and cut off. */
  function AsText(v: Option<Value>): Option<Value> {
    if v.Some? then Some(Text(Truncate(v.value.Str()))) else None
  }

  /** The order identifier that is left of an item's three after they have been stored. */
  function SurvivingSource(item: Item): Option<string> {
    SourceId(AsText(Get(item.fields, Id)), AsText(Get(item.fields, OrderNo)), AsText(Get(item.fields, TradeNo)))
  }

  predicate Identifies(source: Option<string>) {
    source.Some? && source.value != ""
  }

  /** Whether the supporter id survives storage: `mid` present, non-empty and untruncated, or `mid`
      absent with `uid` untruncated or missing, or `mid` empty with nothing to fall back on but the
      empty column. */
  predicate UidPreserving(item: Item) {
    if Mid in item.fields && item.fields[Mid].Str() != "" then |item.fields[Mid].Str()| <= RAW_LIMIT
    else if Mid in item.fields then Uid !in item.fields || item.fields[Uid].Str() == ""
    else Uid in item.fields ==> |item.fields[Uid].Str()| <= RAW_LIMIT
  }

  /** What decides whether the two keys agree: an order identifier must survive as it was, and where
      there is none, none may appear and the supporter id must survive. */
  predicate KeysSurvive(item: Item) {
    if Identifies(ItemSource(item)) then SurvivingSource(item) == ItemSource(item)
    else !Identifies(SurvivingSource(item)) && UidPreserving(item)
  }

  /** The stored order identifiers are what storing does to the item's. */
  lemma StoredSourceSurvives(item: Item)
    ensures StoredSource(RawData(item)) == SurvivingSource(item)
  {
    forall f | f in {Id, OrderNo, TradeNo}
      ensures StoredText(RawData(item), f) == AsText(Get(item.fields, f))
    {
    }
  }

  lemma StoredUidSurvives(user: UserId, account: AccountId, item: Item)
    requires item.Parses()
    ensures StoredUid(BuildChargeRecord(user, account, item).value) == item.GetOr(Mid, Uid) <==> UidPreserving(item)
  {
    var r := BuildChargeRecord(user, account, item).value;
    hide StableRecordKey, MigrationKey;
    if Mid in item.fields {
      assert r.raw[Mid] == Truncate(item.fields[Mid].Str());
      if |item.fields[Mid].Str()| > RAW_LIMIT {
        assert |r.raw[Mid]| == RAW_LIMIT;
      }
    }
    if Uid in item.fields {
      assert r.raw[Uid] == Truncate(item.fields[Uid].Str());
      if |item.fields[Uid].Str()| > RAW_LIMIT {
        assert |r.raw[Uid]| == RAW_LIMIT;
      }
    }
  }

  /** For every item that parses, the key the migration computes from the stored row is the
      collector's key exactly when the item's keys survive storage. */
  lemma KeysAgreeIff(user: UserId, account: AccountId, item: Item)
    requires item.Parses()
    ensures var r := BuildChargeRecord(user, account, item).value;
            && r.recordKey == r.eventId == StableRecordKey(account, item)
            && (MigrationKey(r) == r.recordKey <==> KeysSurvive(item))
  {
    StoredSourceSurvives(item);
    StoredUidSurvives(user, account, item);
    hide SurvivingSource, ItemSource, StoredSource, StoredUid, UidPreserving;
  }

  /** An item whose order identifiers are absent or neither null nor too long, and whose supporter id
      is present, non-empty and not too long. */
  predicate KeyPreserving(item: Item) {
    && (forall f :: f in {Id, OrderNo, TradeNo} && f in item.fields ==>
                      item.fields[f] != Null && |item.fields[f].Str()| <= RAW_LIMIT)
    && Mid in item.fields
    && 0 < |item.fields[Mid].Str()| <= RAW_LIMIT
  }

  lemma FieldSurvives(item: Item, f: Field)
    requires item.Valid()
    requires f in item.fields ==> item.fields[f] != Null && |item.fields[f].Str()| <= RAW_LIMIT
    ensures Usable(AsText(Get(item.fields, f))) == Usable(Get(item.fields, f))
    ensures Usable(Get(item.fields, f)) ==>
              AsText(Get(item.fields, f)).value.Str() == Get(item.fields, f).value.Str()
  {
  }

  /** The migration and the collector agree on every such item. */
  lemma KeysAgree(user: UserId, account: AccountId, item: Item)
    requires item.Valid() && item.Parses() && KeyPreserving(item)
    ensures var r := BuildChargeRecord(user, account, item).value;
            MigrationKey(r) == r.recordKey == r.eventId
  {
    FieldSurvives(item, Id);
    FieldSurvives(item, OrderNo);
    FieldSurvives(item, TradeNo);
    assert SurvivingSource(item) == ItemSource(item);
    hide StableRecordKey, MigrationKey, SurvivingSource, ItemSource;
    KeysAgreeIff(user, account, item);
  }

  /** An `id` that is usable and short, or such an `orderNo` in an item without an `id`, decides alone:
      the supporter id does not matter. */
  lemma OrderIdDecides(user: UserId, account: AccountId, item: Item)
    requires item.Parses() && Identifies(ItemSource(item))
    requires (Usable(Get(item.fields, Id)) && |item.fields[Id].Str()| <= RAW_LIMIT && item.fields[Id].Str() != "")
             || (Id !in item.fields && Usable(Get(item.fields, OrderNo))
                 && 0 < |item.fields[OrderNo].Str()| <= RAW_LIMIT)
    ensures var r := BuildChargeRecord(user, account, item).value; MigrationKey(r) == r.recordKey
  {
    assert SurvivingSource(item) == ItemSource(item);
    hide StableRecordKey, MigrationKey, SurvivingSource, ItemSource;
    KeysAgreeIff(user, account, item);
  }

  /** A null `id` is stored as the text "None", which the migration takes for an order identifier: the
      keys never agree, unless that is what the next identifier says. Without another one, all such
      charges of an account get one key. */
  lemma NullIdBreaksAgreement(user: UserId, account: AccountId, item: Item)
    requires item.Parses() && Id in item.fields && item.fields[Id] == Null
    ensures var r := BuildChargeRecord(user, account, item).value;
            && MigrationKey(r) == BySource(account, "None")
            && (MigrationKey(r) == r.recordKey <==> ItemSource(item) == Some("None"))
  {
    assert Strip("None") == "None";
    assert SurvivingSource(item) == Some("None");
    StoredSourceSurvives(item);
    hide SurvivingSource, ItemSource;
  }

  /** Without an order identifier, the keys agree exactly when the supporter id survives storage. */
  lemma ContentKeysAgreeIff(user: UserId, account: AccountId, item: Item)
    requires item.Parses()
    requires Id !in item.fields && OrderNo !in item.fields && TradeNo !in item.fields
    ensures var r := BuildChargeRecord(user, account, item).value;
            MigrationKey(r) == r.recordKey <==> UidPreserving(item)
  {
    assert SurvivingSource(item) == None && ItemSource(item) == None;
    hide StableRecordKey, MigrationKey, SurvivingSource, ItemSource;
    KeysAgreeIff(user, account, item);
  }

  /** Enrichment never changes a stored key; nor, if the two rows' stored data give one key, the key
      the migration would compute. */
  lemma EnrichKeepsKeys(existing: ChargeRecord, incoming: ChargeRecord)
    ensures Enrich(existing, incoming).recordKey == existing.recordKey
    ensures Enrich(existing, incoming).eventId == existing.eventId
    ensures MigrationKey(existing) == MigrationKey(incoming) ==>
              MigrationKey(Enrich(existing, incoming)) == MigrationKey(existing)
  {
    MergedSource(existing.raw, incoming.raw);
    hide SourceId;
    var m := Enrich(existing, incoming);
    if MigrationKey(existing) == MigrationKey(incoming) && MigrationKey(existing).ByContent? {
      assert StoredUid(m) == StoredUid(existing);
    }
  }

  /** The merged row's order identifier is one of the two rows' own. */
  lemma MergedSource(mine: map<Field, string>, theirs: map<Field, string>)
    ensures StoredSource(MergeRaw(mine, theirs)) in {StoredSource(mine), StoredSource(theirs)}
  {
    var m := MergeRaw(mine, theirs);
    forall f
      ensures StoredText(m, f) ==
              if Usable(StoredText(mine, f)) || StoredText(theirs, f).None? then StoredText(mine, f)
              else StoredText(theirs, f)
    {
    }
  }
}
