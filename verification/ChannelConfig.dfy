/** A channel's configuration: the masked view shown to its owner, and the merge of an edited view
    back into what is stored. */
module ChannelConfig {
  import opened Common

  datatype Json =
    | JNull
    | JBool(flag: bool)
    | JNumber(digits: string)
    | JString(text: string)
    | JList(items: seq<Json>)
    | JObject(entries: seq<Entry>)

  datatype Entry = Entry(name: string, value: Json)

  type Config = map<string, Json>

  const SECRET_CONFIG_KEYS := {"webhook_url", "bot_token", "send_key", "url", "headers", "json_template"}
  const SENSITIVE_KEY_PARTS := ["token", "secret", "password", "cookie", "authorization"]

  function LowerChar(c: char): char {
    if 'A' <= c <= 'Z' then ((c as int - 'A' as int) + 'a' as int) as char else c
  }

  function Lower(s: string): string {
    seq(|s|, i requires 0 <= i < |s| => LowerChar(s[i]))
  }

  predicate Contains(s: string, part: string) {
    part <= s || (s != "" && Contains(s[1..], part))
  }

  predicate IsSensitiveKey(key: string) {
    var normalized := Lower(key);
    normalized in SECRET_CONFIG_KEYS || exists part :: part in SENSITIVE_KEY_PARTS && Contains(normalized, part)
  }

  /** Text starting with three stars, or a non-empty object or list of nothing else. */
  predicate LooksMasked(v: Json) {
    match v
    case JString(t) => "***" <= t
    case JObject(entries) => entries != [] && forall i :: 0 <= i < |entries| ==> LooksMasked(entries[i].value)
    case JList(items) => items != [] && forall i :: 0 <= i < |items| ==> LooksMasked(items[i])
    case _ => false
  }

  function MaskValue(v: Json): Json {
    match v
    case JString(t) => if |t| > 4 then JString("***" + t[|t| - 4..]) else JString("***")
    case JObject(entries) =>
      JObject(seq(|entries|, i requires 0 <= i < |entries| => Entry(entries[i].name, JString("***"))))
    case JList(_) => JList([JString("***")])
    case _ => JString("***")
  }

  function Masked(config: Config): Config {
    map key | key in config :: if IsSensitiveKey(key) then MaskValue(config[key]) else config[key]
  }

  /** A submitted value that stands for the stored one. */
  predicate Untouched(key: string, v: Json) {
    IsSensitiveKey(key) && LooksMasked(v)
  }

  function Merged(existing: Config, submitted: Config): Config {
    existing + map key | key in submitted && !Untouched(key, submitted[key]) :: submitted[key]
  }

  predicate HoldsMask(config: Config) {
    exists key :: key in config && Untouched(key, config[key])
  }

  /** The dictionary `mask_config` builds. */
  method MaskConfig(config: Config) returns (masked: Config)
    ensures masked == Masked(config)
  {
    masked := map[];
    var todo := config.Keys;
    while todo != {}
      invariant todo <= config.Keys && masked.Keys == config.Keys - todo
      invariant forall key :: key in masked ==>
                                masked[key] == if IsSensitiveKey(key) then MaskValue(config[key]) else config[key]
      decreases |todo|
    {
      hide IsSensitiveKey, MaskValue;
      var key :| key in todo;
      todo := todo - {key};
      masked := masked[key := if IsSensitiveKey(key) then MaskValue(config[key]) else config[key]];
    }
  }

  /** The configuration an update stores: after a change of provider the submitted one, otherwise
      the stored one with every submitted value that is not its own mask. */
  method MergeChannelConfig(stored: string, provider: string, existing: Config,
          submitted: Config) returns (merged: Config)
    ensures merged == if provider != stored then submitted else Merged(existing, submitted)
  {
    hide Untouched, Merged;
    if provider != stored {
      return submitted;
    }
    merged := existing;
    var todo := submitted.Keys;
    assert merged == Merged(existing, submitted - todo) by { NothingMerged(existing, submitted); }
    while todo != {}
      invariant todo <= submitted.Keys && merged == Merged(existing, submitted - todo)
      decreases |todo|
    {
      var key :| key in todo;
      MergedStep(existing, submitted, todo, key);
      todo := todo - {key};
      if !Untouched(key, submitted[key]) {
        merged := merged[key := submitted[key]];
      }
    }
    assert submitted - todo == submitted;
  }

  lemma NothingMerged(existing: Config, submitted: Config)
    ensures Merged(existing, submitted - submitted.Keys) == existing
  {
  }

  lemma MergedStep(existing: Config, submitted: Config, todo: set<string>, key: string)
    requires key in todo && key in submitted
    ensures var before := Merged(existing, submitted - todo);
            Merged(existing, submitted - (todo - {key}))
            == if Untouched(key, submitted[key]) then before else before[key := submitted[key]]
  {
    hide Untouched;
  }

  /** A mask is recognised as one, except that of an empty object, which is the object itself. */
  lemma MaskLooksMasked(v: Json)
    ensures LooksMasked(MaskValue(v)) || (v == JObject([]) && MaskValue(v) == v)
  {
    match v
    case JString(t) =>
      if |t| > 4 {
        assert "***" <= "***" + t[|t| - 4..];
      }
    case JObject(entries) =>
      if entries == [] {
        assert MaskValue(v).entries == [];
      }
    case JList(_) =>
    case _ =>
  }

  /** Saving the masked view of a configuration leaves it as it is, whatever it holds. */
  lemma MaskedViewRoundTrips(config: Config)
    ensures Merged(config, Masked(config)) == config
  {
    hide IsSensitiveKey, LooksMasked, MaskValue;
    forall key | key in config && !Untouched(key, Masked(config)[key])
      ensures Masked(config)[key] == config[key]
    {
      MaskLooksMasked(config[key]);
    }
  }

  /** So does any view in which only some entries are shown. */
  lemma PartOfTheViewRoundTrips(config: Config, shown: set<string>)
    ensures Merged(config, map key | key in config && key in shown :: Masked(config)[key]) == config
  {
    hide IsSensitiveKey, LooksMasked, MaskValue;
    forall key | key in config && !Untouched(key, Masked(config)[key])
      ensures Masked(config)[key] == config[key]
    {
      MaskLooksMasked(config[key]);
    }
  }

  /** An edit of one entry changes that entry and nothing else; one that submits a mask under a
      sensitive key changes nothing. No entry is ever removed. */
  lemma OneEdit(config: Config, key: string, v: Json)
    ensures Merged(config, Masked(config)[key := v])
            == if Untouched(key, v) then config else config[key := v]
  {
    hide IsSensitiveKey, LooksMasked, MaskValue;
    forall k | k in config && k != key && !Untouched(k, Masked(config)[k])
      ensures Masked(config)[k] == config[k]
    {
      MaskLooksMasked(config[k]);
    }
  }

  /** A merge never puts a mask where there was none, so it never makes a configuration that was
      accepted be refused for holding one. */
  lemma MergeStoresNoMask(existing: Config, submitted: Config)
    requires !HoldsMask(existing)
    ensures !HoldsMask(Merged(existing, submitted))
  {
    hide Untouched;
  }

  /** Inside an object, though, a mask is kept out exactly when every field is one: an edit of one
      header that sends the others masked stores their masks. */
  lemma PartialMaskIsStored(config: Config, key: string, entries: seq<Entry>, i: nat)
    requires IsSensitiveKey(key) && i < |entries| && entries[i].value == JString("***")
    ensures var after := Merged(config, Masked(config)[key := JObject(entries)]);
            (key in after && after[key] == JObject(entries))
            <==> (exists j :: 0 <= j < |entries| && !LooksMasked(entries[j].value))
                 || Get(config, key) == Some(JObject(entries))
  {
    OneEdit(config, key, JObject(entries));
    hide IsSensitiveKey, Merged;
  }

  lemma HeaderEditLosesSecret(secret: string)
    requires |secret| > 4
    ensures var before := map["headers" := JObject([Entry("Authorization", JString(secret)), Entry("X-Env", JString("a"))])];
            var edited := JObject([Entry("Authorization", JString("***")), Entry("X-Env", JString("b"))]);
            Merged(before, Masked(before)["headers" := edited])["headers"] == edited
  {
    var before := map["headers" := JObject([Entry("Authorization", JString(secret)), Entry("X-Env", JString("a"))])];
    var edited := JObject([Entry("Authorization", JString("***")), Entry("X-Env", JString("b"))]);
    assert !LooksMasked(edited.entries[1].value);
    OneEdit(before, "headers", edited);
  }

  // ---------------------------------------------------------------- what the masked view shows

  /** A letter and its capital, or one character twice. */
  predicate SameLetter(c: char, lower: char) {
    c == lower || ('a' <= lower <= 'z' && c as int + 32 == lower as int)
  }

  ghost predicate SameLetters(s: string, lower: string) {
    |s| == |lower| && forall i :: 0 <= i < |s| ==> SameLetter(s[i], lower[i])
  }

  ghost predicate HoldsAt(s: string, i: nat, word: string) {
    i + |word| <= |s| && SameLetters(s[i..i + |word|], word)
  }

  /** Some stretch of a text reads a word, in any letter case. */
  ghost predicate Holds(s: string, word: string) {
    exists i: nat :: HoldsAt(s, i, word)
  }

  ghost predicate NamesSecret(key: string) {
    || (exists name :: name in {"webhook_url", "bot_token", "send_key", "url", "headers", "json_template"}
                       && SameLetters(key, name))
    || (exists word :: word in {"token", "secret", "password", "cookie", "authorization"} && Holds(key, word))
  }

  predicate IsLower(word: string) {
    forall i :: 0 <= i < |word| ==> !('A' <= word[i] <= 'Z')
  }

  lemma LowerIsSame(s: string, lower: string)
    requires IsLower(lower)
    ensures Lower(s) == lower <==> SameLetters(s, lower)
  {
    forall i | 0 <= i < |s| && |s| == |lower|
      ensures Lower(s)[i] == lower[i] <==> SameLetter(s[i], lower[i])
    {
    }
  }

  predicate ReadsAt(s: string, i: nat, part: string) {
    i + |part| <= |s| && s[i..i + |part|] == part
  }

  lemma {:induction false} ContainsIff(s: string, part: string)
    ensures Contains(s, part) <==> exists i: nat :: ReadsAt(s, i, part)
  {
    if part <= s {
      assert ReadsAt(s, 0, part);
    } else if s != "" {
      ContainsIff(s[1..], part);
      if i: nat :| ReadsAt(s[1..], i, part) {
        assert s[i + 1..i + 1 + |part|] == s[1..][i..i + |part|];
        assert ReadsAt(s, i + 1, part);
      }
      if i: nat :| ReadsAt(s, i, part) {
        assert i != 0;
        assert s[1..][i - 1..i - 1 + |part|] == s[i..i + |part|];
        assert ReadsAt(s[1..], i - 1, part);
      }
    } else {
      assert forall i: nat :: ReadsAt(s, i, part) ==> part <= s;
    }
  }

  lemma LowerContains(s: string, word: string)
    requires IsLower(word)
    ensures Contains(Lower(s), word) <==> Holds(s, word)
  {
    ContainsIff(Lower(s), word);
    hide SameLetters, Contains;
    forall i: nat
      ensures ReadsAt(Lower(s), i, word) <==> HoldsAt(s, i, word)
    {
      if i + |word| <= |s| {
        LowerIsSame(s[i..i + |word|], word);
        assert Lower(s)[i..i + |word|] == Lower(s[i..i + |word|]);
      }
    }
    hide ReadsAt, HoldsAt;
  }

  /** Which entries are kept secret: those with one of six names, and those whose name holds one of five
      words, in any letter case. */
  lemma SensitiveIff(key: string)
    ensures IsSensitiveKey(key) <==> NamesSecret(key)
  {
    hide SameLetters, Holds, Lower, Contains;
    forall name | name in SECRET_CONFIG_KEYS
      ensures Lower(key) == name <==> SameLetters(key, name)
    {
      LowerIsSame(key, name);
    }
    forall word | word in SENSITIVE_KEY_PARTS
      ensures Contains(Lower(key), word) <==> Holds(key, word)
    {
      LowerContains(key, word);
    }
    assert forall word :: word in SENSITIVE_KEY_PARTS <==>
                            word in {"token", "secret", "password", "cookie", "authorization"};
  }

  predicate IsShort(v: Json) {
    match v
    case JString(t) => |t| <= 4
    case JNull => true
    case JBool(_) => true
    case JNumber(_) => true
    case _ => false
  }

  function Names(entries: seq<Entry>): seq<string> {
    seq(|entries|, i requires 0 <= i < |entries| => entries[i].name)
  }

  /** Two secret values that nobody who sees their masks can tell apart: short texts and other plain
      values, longer texts that end alike, objects with the same field names, any lists. */
  ghost predicate Alike(v: Json, w: Json) {
    || (IsShort(v) && IsShort(w))
    || (v.JString? && w.JString? && |v.text| > 4 && |w.text| > 4
        && v.text[|v.text| - 4..] == w.text[|w.text| - 4..])
    || (v.JObject? && w.JObject? && Names(v.entries) == Names(w.entries))
    || (v.JList? && w.JList?)
  }

  /** A mask tells exactly so much. */
  lemma MaskTells(v: Json, w: Json)
    ensures MaskValue(v) == MaskValue(w) <==> Alike(v, w)
  {
    match (v, w)
    case (JString(t), JString(u)) =>
      if |t| > 4 && |u| > 4 {
        var a, b := t[|t| - 4..], u[|u| - 4..];
        assert ("***" + a)[3..] == a && ("***" + b)[3..] == b;
      } else if |t| > 4 {
        assert |"***" + t[|t| - 4..]| == 7;
      } else if |u| > 4 {
        assert |"***" + u[|u| - 4..]| == 7;
      }
    case (JString(t), _) =>
      if |t| > 4 {
        assert |"***" + t[|t| - 4..]| == 7;
      }
    case (_, JString(u)) =>
      if |u| > 4 {
        assert |"***" + u[|u| - 4..]| == 7;
      }
    case (JObject(a), JObject(b)) => FieldsTell(a, b);
    case _ =>
  }

  lemma FieldsTell(a: seq<Entry>, b: seq<Entry>)
    ensures MaskValue(JObject(a)) == MaskValue(JObject(b)) <==> Names(a) == Names(b)
  {
    var m, n := MaskValue(JObject(a)).entries, MaskValue(JObject(b)).entries;
    assert forall i :: 0 <= i < |a| ==> m[i] == Entry(Names(a)[i], JString("***"));
    assert forall i :: 0 <= i < |b| ==> n[i] == Entry(Names(b)[i], JString("***"));
    if m == n {
      assert |a| == |b|;
      assert forall i :: 0 <= i < |a| ==> Names(a)[i] == m[i].name == n[i].name == Names(b)[i];
    }
  }

  /** Two configurations have the same masked view exactly when they have the same entries, the open
      ones with the same values and the secret ones with values that look alike. */
  lemma ViewTells(c: Config, d: Config)
    ensures Masked(c) == Masked(d) <==>
            && c.Keys == d.Keys
            && forall key :: key in c ==> if NamesSecret(key) then Alike(c[key], d[key]) else c[key] == d[key]
  {
    hide IsSensitiveKey, NamesSecret, MaskValue, Alike;
    forall key
      ensures IsSensitiveKey(key) <==> NamesSecret(key)
    {
      SensitiveIff(key);
    }
    forall key | key in c && key in d
      ensures MaskValue(c[key]) == MaskValue(d[key]) <==> Alike(c[key], d[key])
    {
      MaskTells(c[key], d[key]);
    }
    assert Masked(c).Keys == c.Keys && Masked(d).Keys == d.Keys;
    if Masked(c) == Masked(d) {
      forall key | key in c
        ensures if NamesSecret(key) then Alike(c[key], d[key]) else c[key] == d[key]
      {
        assert Masked(c)[key] == Masked(d)[key];
      }
    }
  }

  /** Open entries are shown as they are. */
  lemma OpenEntriesShown(c: Config, key: string)
    requires key in c && !NamesSecret(key)
    ensures key in Masked(c) && Masked(c)[key] == c[key]
  {
    SensitiveIff(key);
    hide IsSensitiveKey, NamesSecret;
  }

  // ---------------------------------------------------------------- what counts as a mask

  /** What a value holds at a path through its objects and lists. */
  function At(v: Json, path: seq<nat>): Option<Json> {
    if path == [] then Some(v)
    else
      match v
      case JObject(entries) => if path[0] < |entries| then At(entries[path[0]].value, path[1..]) else None
      case JList(items) => if path[0] < |items| then At(items[path[0]], path[1..]) else None
      case _ => None
  }

  /** A text of stars, or an object or a list that is not empty. */
  predicate MaskOrHolder(v: Json) {
    match v
    case JString(t) => |t| >= 3 && t[0] == t[1] == t[2] == '*'
    case JObject(entries) => |entries| > 0
    case JList(items) => |items| > 0
    case _ => false
  }

  ghost predicate AllMask(v: Json) {
    forall path :: At(v, path).Some? ==> MaskOrHolder(At(v, path).value)
  }

  /** A value is taken for a mask exactly when all it holds, at whatever depth, is texts that begin with
      three stars. */
  lemma {:induction false} LooksMaskedIff(v: Json)
    ensures LooksMasked(v) <==> AllMask(v)
  {
    match v
    case JObject(entries) =>
      forall i | 0 <= i < |entries|
        ensures LooksMasked(entries[i].value) <==> AllMask(entries[i].value)
      {
        LooksMaskedIff(entries[i].value);
      }
      FieldPaths(entries);
      hide AllMask;
    case JList(items) =>
      forall i | 0 <= i < |items|
        ensures LooksMasked(items[i]) <==> AllMask(items[i])
      {
        LooksMaskedIff(items[i]);
      }
      ItemPaths(items);
      hide AllMask;
    case _ =>
      assert At(v, []) == Some(v);
      PlainPaths(v);
  }

  lemma PlainPaths(v: Json)
    requires !v.JObject? && !v.JList?
    ensures forall path :: At(v, path).Some? ==> path == []
  {
  }

  lemma FieldPaths(entries: seq<Entry>)
    ensures AllMask(JObject(entries)) <==> entries != [] && forall i :: 0 <= i < |entries| ==> AllMask(entries[i].value)
  {
    var v := JObject(entries);
    assert At(v, []) == Some(v);
    if AllMask(v) {
      forall i, path | 0 <= i < |entries| && At(entries[i].value, path).Some?
        ensures MaskOrHolder(At(entries[i].value, path).value)
      {
        assert ([i] + path)[1..] == path;
        assert At(v, [i] + path) == At(entries[i].value, path);
      }
    }
    if entries != [] && forall i :: 0 <= i < |entries| ==> AllMask(entries[i].value) {
      forall path | At(v, path).Some?
        ensures MaskOrHolder(At(v, path).value)
      {
        if path != [] {
          assert AllMask(entries[path[0]].value) && At(v, path) == At(entries[path[0]].value, path[1..]);
        }
      }
    }
  }

  lemma ItemPaths(items: seq<Json>)
    ensures AllMask(JList(items)) <==> items != [] && forall i :: 0 <= i < |items| ==> AllMask(items[i])
  {
    var v := JList(items);
    assert At(v, []) == Some(v);
    if AllMask(v) {
      forall i, path | 0 <= i < |items| && At(items[i], path).Some?
        ensures MaskOrHolder(At(items[i], path).value)
      {
        assert ([i] + path)[1..] == path;
        assert At(v, [i] + path) == At(items[i], path);
      }
    }
    if items != [] && forall i :: 0 <= i < |items| ==> AllMask(items[i]) {
      forall path | At(v, path).Some?
        ensures MaskOrHolder(At(v, path).value)
      {
        if path != [] {
          assert AllMask(items[path[0]]) && At(v, path) == At(items[path[0]], path[1..]);
        }
      }
    }
  }
}
