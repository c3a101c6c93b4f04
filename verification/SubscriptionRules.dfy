/** The subscription rules of a user: replacing them and reading them back. */
module SubscriptionRules {
  import opened Common
  import opened Pipeline

  /** A submitted rule; an unsupported event type is `None`. */
  datatype Rule = Rule(eventType: Option<EventType>, channelIds: seq<ChannelId>)

  datatype Outcome = Updated | UnsupportedEvent | DuplicateEvent | ForeignChannel

  type Subs = map<SubKey, Subscription>
  type Channels = map<ChannelId, Channel>

  const EVENT_TYPE_ORDER := [NewCharge, CollectionFailed, CookieExpired, CouponClaimSucceeded, CouponClaimFailed,
                             ScheduledJobFailed, DailyTaskSucceeded, DailyTaskFailed]

  function OwnChannels(channels: Channels, user: UserId): set<ChannelId> {
    set c | c in channels && channels[c].user == user
  }

  /** Subscription rows belong to their channel's owner. */
  ghost predicate OwnedRows(subs: Subs, channels: Channels) {
    forall k :: k in subs && k.channel in channels ==> subs[k].user == channels[k.channel].user
  }

  // ---------------------------------------------------------------- what a request asks for

  /** Whether the rules ask for an event to go to a channel. */
  predicate Requested(rules: seq<Rule>, k: SubKey) {
    exists i :: 0 <= i < |rules| && rules[i].eventType == Some(k.eventType) && k.channel in rules[i].channelIds
  }

  /** The channels the rules name for an event, if they mention it; the last mention counts. */
  function Wanted(rules: seq<Rule>, e: EventType): Option<set<ChannelId>> {
    if rules == [] then None
    else if rules[|rules| - 1].eventType == Some(e) then Some(Elements(rules[|rules| - 1].channelIds))
    else Wanted(rules[..|rules| - 1], e)
  }

  lemma {:induction false} WantedIff(rules: seq<Rule>, e: EventType)
    ensures Wanted(rules, e).Some? <==> exists i :: 0 <= i < |rules| && rules[i].eventType == Some(e)
  {
    if rules != [] {
      var n := |rules| - 1;
      WantedIff(rules[..n], e);
      if i :| 0 <= i < |rules| && rules[i].eventType == Some(e) {
        assert i < n ==> rules[..n][i].eventType == Some(e);
      }
      if Wanted(rules, e).Some? && rules[n].eventType != Some(e) {
        var i :| 0 <= i < n && rules[..n][i].eventType == Some(e);
        assert rules[i].eventType == Some(e);
      }
    }
  }

  lemma RequestedSnoc(rules: seq<Rule>, rule: Rule, k: SubKey)
    ensures Requested(rules + [rule], k) <==>
            Requested(rules, k) || (rule.eventType == Some(k.eventType) && k.channel in rule.channelIds)
  {
    var more := rules + [rule];
    if i :| 0 <= i < |more| && more[i].eventType == Some(k.eventType) && k.channel in more[i].channelIds {
      assert i < |rules| ==> more[i] == rules[i];
    }
    if i :| 0 <= i < |rules| && rules[i].eventType == Some(k.eventType) && k.channel in rules[i].channelIds {
      assert more[i] == rules[i];
    }
    assert more[|rules|] == rule;
  }

  /** Without a repeated event, the dictionary of rules says what is requested. */
  lemma {:induction false} RequestedWanted(rules: seq<Rule>, k: SubKey)
    requires NoRepeat(rules)
    ensures Requested(rules, k) <==> Wanted(rules, k.eventType).Some? && k.channel in Wanted(rules, k.eventType).value
  {
    if rules != [] {
      var n := |rules| - 1;
      RequestedWanted(rules[..n], k);
      RequestedSnoc(rules[..n], rules[n], k);
      WantedIff(rules[..n], k.eventType);
      assert rules == rules[..n] + [rules[n]];
      if rules[n].eventType == Some(k.eventType) {
        assert forall i :: 0 <= i < n ==> rules[..n][i].eventType != Some(k.eventType);
      }
    }
  }

  lemma RequestedIff(rules: seq<Rule>, k: SubKey, desired: map<EventType, set<ChannelId>>)
    requires NoRepeat(rules) && forall e :: Get(desired, e) == Wanted(rules, e)
    ensures Requested(rules, k) <==> k.eventType in desired && k.channel in desired[k.eventType]
  {
    RequestedWanted(rules, k);
    assert Get(desired, k.eventType) == Wanted(rules, k.eventType);
  }

  lemma RequestedOwn(rules: seq<Rule>, own: set<ChannelId>, k: SubKey)
    requires OnlyOwn(rules, own) && Requested(rules, k)
    ensures k.channel in own
  {
  }

  predicate Supported(rules: seq<Rule>) {
    forall i :: 0 <= i < |rules| ==> rules[i].eventType.Some?
  }

  predicate NoRepeat(rules: seq<Rule>) {
    forall i, j :: 0 <= i < j < |rules| ==> rules[i].eventType != rules[j].eventType
  }

  predicate OnlyOwn(rules: seq<Rule>, own: set<ChannelId>) {
    forall i, j :: 0 <= i < |rules| && 0 <= j < |rules[i].channelIds| ==> rules[i].channelIds[j] in own
  }

  /** What the rows become: those of the user's channels follow the rules, all others stay. */
  ghost predicate Replaced(before: Subs, after: Subs, channels: Channels, user: UserId, rules: seq<Rule>) {
    forall k: SubKey ::
      if k.channel in channels && channels[k.channel].user == user then
        if Requested(rules, k) then k in after && after[k] == Subscription(user, true)
        else if k in before then k in after && after[k] == before[k].(enabled := false)
        else k !in after
      else Get(after, k) == Get(before, k)
  }

  // ---------------------------------------------------------------- the listing

  predicate Listed(subs: Subs, channels: Channels, user: UserId, k: SubKey) {
    && k in subs && subs[k] == Subscription(user, true)
    && k.channel in channels && channels[k.channel].user == user
  }

  predicate Ascending(s: seq<ChannelId>) {
    forall i, j :: 0 <= i < j < |s| ==> s[i] < s[j]
  }

  function Insert(s: seq<ChannelId>, c: ChannelId): (r: seq<ChannelId>)
    ensures forall x :: x in r <==> x in s || x == c
    ensures Ascending(s) && c !in s ==> Ascending(r)
  {
    if s == [] then [c]
    else if s[|s| - 1] < c then s + [c]
    else
      var r := Insert(s[..|s| - 1], c);
      assert forall x :: x in s <==> x in s[..|s| - 1] || x == s[|s| - 1];
      assert forall i :: 0 <= i < |r| ==> r[i] in r;
      r + [s[|s| - 1]]
  }

  function Sorted(s: seq<ChannelId>): (r: seq<ChannelId>)
    ensures forall x :: x in r <==> x in s
    ensures Distinct(s) ==> Ascending(r)
  {
    if s == [] then []
    else
      assert forall x :: x in s <==> x in s[..|s| - 1] || x == s[|s| - 1];
      Insert(Sorted(s[..|s| - 1]), s[|s| - 1])
  }

  /** There is only one ascending list of some channels. */
  lemma {:induction false} AscendingIsUnique(s: seq<ChannelId>, t: seq<ChannelId>)
    requires Ascending(s) && Ascending(t) && forall x :: x in s <==> x in t
    ensures s == t
  {
    if s == [] && t != [] {
      HeadIsMember(t);
      assert false;
    } else if s != [] && t == [] {
      HeadIsMember(s);
      assert false;
    } else if s != [] {
      var m, n := |s| - 1, |t| - 1;
      assert s[m] in t && t[n] in s;
      assert s[m] == t[n];
      forall x
        ensures x in s[..m] <==> x in t[..n]
      {
        FrontMembers(s, x);
        FrontMembers(t, x);
      }
      AscendingIsUnique(s[..m], t[..n]);
    }
  }

  lemma HeadIsMember(s: seq<ChannelId>)
    requires s != []
    ensures exists x :: x in s
  {
    assert s[0] in s;
  }

  lemma FrontMembers(s: seq<ChannelId>, x: ChannelId)
    requires Ascending(s) && s != []
    ensures x in s[..|s| - 1] <==> x in s && x != s[|s| - 1]
  {
    if x in s && x != s[|s| - 1] {
      var i :| 0 <= i < |s| && s[i] == x;
      assert s[..|s| - 1][i] == x;
    }
  }

  lemma ByKey(after: Subs, before: Subs, channels: Channels, user: UserId, c: ChannelId, selected: seq<EventType>)
    requires OwnedRows(before, channels) && c in OwnChannels(channels, user)
    requires forall k: SubKey :: k.channel != c ==> Get(after, k) == Get(before, k)
    requires forall k: SubKey :: k.channel == c ==>
                                   Get(after, k) == if k.eventType in selected then Some(Subscription(user, true))
                                                    else if k in before then Some(Subscription(user, false)) else None
    ensures OwnedRows(after, channels)
    ensures forall e :: Listed(after, channels, user, SubKey(c, e)) <==> e in selected
    ensures forall e :: SubKey(c, e) in after <==> SubKey(c, e) in before || e in selected
  {
    forall e
      ensures Listed(after, channels, user, SubKey(c, e)) <==> e in selected
      ensures SubKey(c, e) in after <==> SubKey(c, e) in before || e in selected
    {
      var k := SubKey(c, e);
      assert Get(after, k) == if e in selected then Some(Subscription(user, true))
                              else if k in before then Some(Subscription(user, false)) else None;
    }
    forall k | k in after && k.channel in channels
      ensures after[k].user == channels[k.channel].user
    {
      assert k.channel != c ==> Get(after, k) == Get(before, k);
    }
  }

  predicate On(desired: map<EventType, set<ChannelId>>, k: SubKey) {
    k.eventType in desired && k.channel in desired[k.eventType]
  }

  class SubscriptionTable {
    var subs: Subs
    var channels: Channels

    /** The rules by event type, unless one is unsupported or repeated. */
    method Desired(rules: seq<Rule>) returns (outcome: Outcome, desired: map<EventType, set<ChannelId>>)
      ensures outcome == Updated <==> Supported(rules) && NoRepeat(rules)
      ensures outcome == UnsupportedEvent ==> !Supported(rules)
      ensures outcome == DuplicateEvent ==> !NoRepeat(rules)
      ensures outcome != ForeignChannel
      ensures outcome == Updated ==>
                forall e :: Get(desired, e) == Wanted(rules, e)
    {
      desired := map[];
      for i := 0 to |rules|
        invariant Supported(rules[..i]) && NoRepeat(rules[..i])
        invariant forall e :: Get(desired, e) == Wanted(rules[..i], e)
      {
        var rule := rules[i];
        assert rules[..i + 1] == rules[..i] + [rule];
        if rule.eventType.None? {
          return UnsupportedEvent, desired;
        }
        WantedIff(rules[..i], rule.eventType.value);
        if rule.eventType.value in desired {
          return DuplicateEvent, desired;
        }
        desired := desired[rule.eventType.value := Elements(rule.channelIds)];
      }
      assert rules[..|rules|] == rules;
      outcome := Updated;
    }

    /** Rows the rules ask for and that are missing are added. */
    method AddMissing(user: UserId, rules: seq<Rule>, existing: set<SubKey>)
      requires Supported(rules)
      requires forall k :: k in existing ==> k in subs
      modifies this`subs
      ensures forall k :: Get(subs, k) == if Requested(rules, k) && k !in existing then Some(Subscription(user, true))
                                          else Get(old(subs), k)
    {
      for i := 0 to |rules|
        invariant forall k :: Get(subs, k) == if Requested(rules[..i], k) && k !in existing
                                              then Some(Subscription(user, true))
                                              else Get(old(subs), k)
      {
        assert rules[..i + 1] == rules[..i] + [rules[i]];
        ghost var sofar := subs;
        AddForRule(user, rules[i].eventType.value, rules[i].channelIds, existing);
        forall k
          ensures Requested(rules[..i + 1], k) <==>
                  Requested(rules[..i], k) || (k.eventType == rules[i].eventType.value && k.channel in rules[i].channelIds)
        {
          RequestedSnoc(rules[..i], rules[i], k);
        }
        hide Requested;
      }
      assert rules[..|rules|] == rules;
    }

    method AddForRule(user: UserId, e: EventType, ids: seq<ChannelId>, existing: set<SubKey>)
      modifies this`subs
      ensures forall k :: Get(subs, k) == if k.eventType == e && k.channel in ids && k !in existing
                                          then Some(Subscription(user, true))
                                          else Get(old(subs), k)
    {
      for j := 0 to |ids|
        invariant forall k :: Get(subs, k) == if k.eventType == e && k.channel in ids[..j] && k !in existing
                                              then Some(Subscription(user, true)) else Get(old(subs), k)
      {
        var k := SubKey(ids[j], e);
        assert ids[..j + 1] == ids[..j] + [ids[j]];
        if k !in existing {
          subs := subs[k := Subscription(user, true)];
        }
      }
      assert ids[..|ids|] == ids;
    }

    /** Every row of the query is switched on or off by the rules. */
    method SwitchRows(rows: seq<SubKey>, desired: map<EventType, set<ChannelId>>)
      requires forall k :: k in rows ==> k in subs
      modifies this`subs
      ensures forall k :: Get(subs, k) == if k in rows then Some(old(subs)[k].(enabled := On(desired, k)))
                                          else Get(old(subs), k)
    {
      for i := 0 to |rows|
        invariant forall k :: k in rows ==> k in subs && subs[k].user == old(subs)[k].user
        invariant forall k :: Get(subs, k) == if k in rows[..i]
                                              then Some(old(subs)[k].(enabled := On(desired, k)))
                                              else Get(old(subs), k)
      {
        var k := rows[i];
        assert rows[..i + 1] == rows[..i] + [k];
        subs := subs[k := subs[k].(enabled := On(desired, k))];
      }
      assert rows[..|rows|] == rows;
    }

    /** Replaces the user's rules; `rows` is the result of the query for the user's rows of the
        user's channels. A refused request changes nothing. */
    method UpdateSubscriptions(user: UserId, rules: seq<Rule>, rows: seq<SubKey>) returns (outcome: Outcome)
      requires OwnedRows(subs, channels)
      requires forall k :: k in rows <==> k in subs && subs[k].user == user && k.channel in OwnChannels(channels, user)
      modifies this`subs
      ensures outcome == Updated <==> Supported(rules) && NoRepeat(rules) && OnlyOwn(rules, OwnChannels(channels, user))
      ensures outcome == UnsupportedEvent ==> !Supported(rules)
      ensures outcome == DuplicateEvent ==> !NoRepeat(rules)
      ensures outcome == ForeignChannel ==>
                Supported(rules) && NoRepeat(rules) && !OnlyOwn(rules, OwnChannels(channels, user))
      ensures outcome != Updated ==> subs == old(subs)
      ensures outcome == Updated ==> Replaced(old(subs), subs, channels, user, rules) && OwnedRows(subs, channels)
    {
      var desired: map<EventType, set<ChannelId>>;
      outcome, desired := Desired(rules);
      if outcome != Updated {
        return;
      }
      var own := OwnChannels(channels, user);
      if !OnlyOwn(rules, own) {
        return ForeignChannel;
      }
      var existing := Elements(rows);
      ghost var before := subs;
      SwitchRows(rows, desired);
      ghost var switched := subs;
      AddMissing(user, rules, existing);
      forall k: SubKey
        ensures k.channel in own && Requested(rules, k) ==> Get(subs, k) == Some(Subscription(user, true))
        ensures k.channel in own && !Requested(rules, k) && k in before ==> Get(subs, k) == Some(before[k].(enabled := false))
        ensures k.channel in own && !Requested(rules, k) && k !in before ==> k !in subs
        ensures k.channel !in own ==> Get(subs, k) == Get(before, k)
      {
        RequestedIff(rules, k, desired);
        if Requested(rules, k) {
          RequestedOwn(rules, own, k);
        }
      }
    }

    /** Saving a channel with the event types selected for it; `rows` are the event types of the
        channel's rows. */
    method ReplaceChannelSubscriptions(user: UserId, c: ChannelId, selected: seq<EventType>, rows: seq<EventType>)
      requires OwnedRows(subs, channels) && c in OwnChannels(channels, user)
      requires forall e :: e in rows <==> SubKey(c, e) in subs
      modifies this`subs
      ensures forall k: SubKey :: k.channel != c ==> Get(subs, k) == Get(old(subs), k)
      ensures forall e :: Listed(subs, channels, user, SubKey(c, e)) <==> e in selected
      ensures forall e :: SubKey(c, e) in subs <==> SubKey(c, e) in old(subs) || e in selected
      ensures OwnedRows(subs, channels)
    {
      ghost var before := subs;
      for i := 0 to |rows|
        invariant subs.Keys == before.Keys
        invariant forall k :: k in subs ==>
                                subs[k] == if k.channel == c && k.eventType in rows[..i]
                                           then Subscription(before[k].user, k.eventType in selected) else before[k]
      {
        var k := SubKey(c, rows[i]);
        assert rows[..i + 1] == rows[..i] + [rows[i]];
        subs := subs[k := subs[k].(enabled := rows[i] in selected)];
      }
      assert rows[..|rows|] == rows;
      ghost var switched := subs;
      for i := 0 to |selected|
        invariant forall k :: Get(subs, k) == if k.channel == c && k.eventType in selected[..i] && k.eventType !in rows
                                              then Some(Subscription(user, true)) else Get(switched, k)
      {
        var e := selected[i];
        assert selected[..i + 1] == selected[..i] + [e];
        if e !in rows {
          subs := subs[SubKey(c, e) := Subscription(user, true)];
        }
      }
      assert selected[..|selected|] == selected;
      forall k: SubKey
        ensures k.channel != c ==> Get(subs, k) == Get(before, k)
        ensures k.channel == c ==> Get(subs, k) == if k.eventType in selected then Some(Subscription(user, true))
                                                   else if k in before then Some(Subscription(user, false)) else None
      {
        assert Get(subs, k) == if k.channel == c && k.eventType in selected && k.eventType !in rows
                               then Some(Subscription(user, true)) else Get(switched, k);
      }
      ByKey(subs, before, channels, user, c, selected);
    }

    /** The user's rules: for every event type the channels it goes to, in order. `rows` is the
        result of the query for the user's rows of the user's channels. */
    method ListSubscriptions(user: UserId, rows: seq<SubKey>) returns (rules: seq<(EventType, seq<ChannelId>)>)
      requires Distinct(rows)
      requires forall k :: k in rows <==> k in subs && subs[k].user == user && k.channel in OwnChannels(channels, user)
      ensures |rules| == |EVENT_TYPE_ORDER|
      ensures forall i :: 0 <= i < |rules| ==>
                            && rules[i].0 == EVENT_TYPE_ORDER[i] && Ascending(rules[i].1)
                            && forall c :: c in rules[i].1 <==> Listed(subs, channels, user, SubKey(c, rules[i].0))
    {
      rules := [];
      for i := 0 to |EVENT_TYPE_ORDER|
        invariant |rules| == i
        invariant forall j :: 0 <= j < i ==>
                                && rules[j].0 == EVENT_TYPE_ORDER[j] && Ascending(rules[j].1)
                                && forall c :: c in rules[j].1 <==> Listed(subs, channels, user, SubKey(c, rules[j].0))
      {
        var ids := EnabledFor(EVENT_TYPE_ORDER[i], rows);
        rules := rules + [(EVENT_TYPE_ORDER[i], Sorted(ids))];
      }
    }

    method EnabledFor(e: EventType, rows: seq<SubKey>) returns (ids: seq<ChannelId>)
      requires Distinct(rows) && forall k :: k in rows ==> k in subs
      ensures Distinct(ids)
      ensures forall c :: c in ids <==> SubKey(c, e) in rows && subs[SubKey(c, e)].enabled
    {
      ids := [];
      for i := 0 to |rows|
        invariant Distinct(ids)
        invariant forall c :: c in ids <==> SubKey(c, e) in rows[..i] && subs[SubKey(c, e)].enabled
      {
        var k := rows[i];
        assert rows[..i + 1] == rows[..i] + [k] && k !in rows[..i];
        if subs[k].enabled && k.eventType == e {
          ids := ids + [k.channel];
        }
      }
      assert rows[..|rows|] == rows;
    }
  }

  // ---------------------------------------------------------------- the round trip

  /** What is listed after an update is what was asked for: for every event exactly the requested
      channels, and for an event no rule mentions none. */
  lemma ListedIsRequested(before: Subs, after: Subs, channels: Channels, user: UserId, rules: seq<Rule>,
                          e: EventType, listed: seq<ChannelId>, wanted: seq<ChannelId>)
    requires OwnedRows(before, channels) && Replaced(before, after, channels, user, rules)
    requires OnlyOwn(rules, OwnChannels(channels, user))
    requires Ascending(listed) && forall c :: c in listed <==> Listed(after, channels, user, SubKey(c, e))
    requires Ascending(wanted) && forall c :: c in wanted <==> Requested(rules, SubKey(c, e))
    ensures listed == wanted
    ensures (forall i :: 0 <= i < |rules| ==> rules[i].eventType != Some(e)) ==> listed == []
  {
    forall c
      ensures c in listed <==> c in wanted
    {
      if Requested(rules, SubKey(c, e)) {
        RequestedOwn(rules, OwnChannels(channels, user), SubKey(c, e));
      }
    }
    AscendingIsUnique(listed, wanted);
    if listed != [] {
      assert listed[0] in wanted;
    }
  }

  /** Nobody else's rows change, and no row disappears. */
  lemma OthersUntouched(before: Subs, after: Subs, channels: Channels, user: UserId, rules: seq<Rule>, k: SubKey)
    requires Replaced(before, after, channels, user, rules) && OwnedRows(before, channels)
    requires k in before
    ensures k in after && after[k].user == before[k].user
    ensures before[k].user != user ==> after[k] == before[k]
    ensures forall u :: u != user ==> (Listed(after, channels, u, k) <==> Listed(before, channels, u, k))
  {
    assert Get(after, k) == Get(before, k) || (k.channel in channels && channels[k.channel].user == user);
  }

  /** Making the same request again changes nothing. */
  lemma UpdateIsIdempotent(before: Subs, once: Subs, twice: Subs, channels: Channels, user: UserId, rules: seq<Rule>)
    requires OwnedRows(before, channels)
    requires Replaced(before, once, channels, user, rules) && Replaced(once, twice, channels, user, rules)
    ensures twice == once
  {
    forall k: SubKey
      ensures Get(twice, k) == Get(once, k)
    {
    }
    assert forall k :: k in once ==> Get(twice, k) == Get(once, k);
    assert forall k :: k in twice ==> Get(twice, k) == Get(once, k);
  }
}
