/** The sliding-window rate limiter: a deque per key, pruned at each call. */
module Limiter {
  import opened Common

  /** The limit and the window that apply to a key; they are a function of the key, as the path
      that fixes them is part of it. */
  datatype Rule = Rule(limit: int, window: real)

  datatype Call = Call(key: string, now: real)

  // ---------------------------------------------------------------- the reference: full histories

  /** The instants later than `lo`. */
  function Recent(h: seq<real>, lo: real): seq<real> {
    if h == [] then []
    else
      var n := |h| - 1;
      if h[n] > lo then Recent(h[..n], lo) + [h[n]] else Recent(h[..n], lo)
  }

  /** The instants in `[a, b)`. */
  function Between(h: seq<real>, a: real, b: real): seq<real> {
    if h == [] then []
    else
      var n := |h| - 1;
      if a <= h[n] < b then Between(h[..n], a, b) + [h[n]] else Between(h[..n], a, b)
  }

  predicate Allowed(h: seq<real>, now: real, rule: Rule) {
    |Recent(h, now - rule.window)| < rule.limit
  }

  /** Every call of a key that was ever accepted, deciding each by the full history before it. */
  function Accepted(calls: seq<Call>, key: string, rule: Rule): seq<real> {
    if calls == [] then []
    else
      var n := |calls| - 1;
      var h := Accepted(calls[..n], key, rule);
      if calls[n].key == key && Allowed(h, calls[n].now, rule) then h + [calls[n].now] else h
  }

  ghost predicate Ordered(calls: seq<Call>) {
    forall i, j :: 0 <= i < j < |calls| ==> calls[i].now <= calls[j].now
  }

  ghost predicate Sorted(h: seq<real>) {
    forall i, j :: 0 <= i < j < |h| ==> h[i] <= h[j]
  }

  lemma {:induction false} AcceptedSorted(calls: seq<Call>, key: string, rule: Rule)
    requires Ordered(calls)
    ensures Sorted(Accepted(calls, key, rule))
    ensures forall i :: 0 <= i < |Accepted(calls, key, rule)| && calls != [] ==>
                          Accepted(calls, key, rule)[i] <= calls[|calls| - 1].now
  {
    if calls != [] {
      var n := |calls| - 1;
      AcceptedSorted(calls[..n], key, rule);
      if n > 0 {
        assert calls[..n][n - 1] == calls[n - 1];
      }
    }
  }

  lemma {:induction false} BetweenInRecent(h: seq<real>, a: real, b: real, lo: real)
    requires lo < a
    ensures |Between(h, a, b)| <= |Recent(h, lo)|
  {
    if h != [] {
      BetweenInRecent(h[..|h| - 1], a, b, lo);
    }
  }

  /** Whatever is called in whatever order, no interval of the window's length ever holds more
      accepted calls of a key than its limit. */
  lemma {:induction false} WindowBound(calls: seq<Call>, key: string, rule: Rule, a: real)
    requires Ordered(calls) && 0 <= rule.limit
    ensures |Between(Accepted(calls, key, rule), a, a + rule.window)| <= rule.limit
  {
    if calls != [] {
      var n := |calls| - 1;
      WindowBound(calls[..n], key, rule, a);
      var h, now := Accepted(calls[..n], key, rule), calls[n].now;
      if calls[n].key == key && Allowed(h, now, rule) {
        assert (h + [now])[..|h|] == h;
        if a <= now < a + rule.window {
          BetweenInRecent(h, a, a + rule.window, now - rule.window);
        }
      }
    }
  }

  /** The same for intervals open at the start and closed at the end. */
  function Within(h: seq<real>, a: real, b: real): seq<real> {
    if h == [] then []
    else
      var n := |h| - 1;
      if a < h[n] <= b then Within(h[..n], a, b) + [h[n]] else Within(h[..n], a, b)
  }

  lemma {:induction false} WithinInRecent(h: seq<real>, a: real, b: real, lo: real)
    requires lo <= a
    ensures |Within(h, a, b)| <= |Recent(h, lo)|
  {
    if h != [] {
      WithinInRecent(h[..|h| - 1], a, b, lo);
    }
  }

  lemma {:induction false} WindowBoundClosed(calls: seq<Call>, key: string, rule: Rule, a: real)
    requires Ordered(calls) && 0 <= rule.limit
    ensures |Within(Accepted(calls, key, rule), a, a + rule.window)| <= rule.limit
  {
    if calls != [] {
      var n := |calls| - 1;
      WindowBoundClosed(calls[..n], key, rule, a);
      var h, now := Accepted(calls[..n], key, rule), calls[n].now;
      if calls[n].key == key && Allowed(h, now, rule) {
        assert (h + [now])[..|h|] == h;
        if a < now <= a + rule.window {
          WithinInRecent(h, a, a + rule.window, now - rule.window);
        }
      }
    }
  }

  function OnlyKey(calls: seq<Call>, key: string): seq<Call> {
    if calls == [] then []
    else
      var n := |calls| - 1;
      if calls[n].key == key then OnlyKey(calls[..n], key) + [calls[n]] else OnlyKey(calls[..n], key)
  }

  /** What a key is granted depends on its own calls only. */
  lemma {:induction false} KeysIndependent(calls: seq<Call>, key: string, rule: Rule)
    ensures Accepted(OnlyKey(calls, key), key, rule) == Accepted(calls, key, rule)
  {
    if calls != [] {
      var n := |calls| - 1;
      KeysIndependent(calls[..n], key, rule);
      if calls[n].key == key {
        var front := OnlyKey(calls[..n], key);
        assert (front + [calls[n]])[..|front|] == front;
      }
    }
  }

  // ---------------------------------------------------------------- the pruned deque

  /** What pruning at a cutoff leaves of a deque: the entries from the first later one on. */
  lemma {:induction false} RecentOfSorted(h: seq<real>, lo: real, k: nat)
    requires Sorted(h) && k <= |h|
    requires forall i :: 0 <= i < k ==> h[i] <= lo
    requires k < |h| ==> h[k] > lo
    ensures Recent(h, lo) == h[k..]
  {
    if h != [] {
      var n := |h| - 1;
      if k <= n {
        RecentOfSorted(h[..n], lo, k);
        assert h[k..] == h[..n][k..] + [h[n]];
      } else {
        RecentNone(h, lo);
      }
    }
  }

  lemma {:induction false} RecentNone(h: seq<real>, lo: real)
    requires forall i :: 0 <= i < |h| ==> h[i] <= lo
    ensures Recent(h, lo) == []
  {
    if h != [] {
      RecentNone(h[..|h| - 1], lo);
    }
  }

  lemma {:induction false} RecentSorted(h: seq<real>, lo: real)
    requires Sorted(h)
    ensures Sorted(Recent(h, lo))
    ensures forall i :: 0 <= i < |Recent(h, lo)| ==> Recent(h, lo)[i] in h
  {
    if h != [] {
      var n := |h| - 1;
      RecentSorted(h[..n], lo);
      forall i | 0 <= i < |Recent(h[..n], lo)|
        ensures Recent(h[..n], lo)[i] <= h[n]
      {
        var t := Recent(h[..n], lo)[i];
        assert t in h[..n];
      }
    }
  }

  /** Pruning twice is pruning at the later cutoff. */
  lemma {:induction false} RecentTwice(h: seq<real>, lo: real, lo': real)
    requires lo <= lo'
    ensures Recent(Recent(h, lo), lo') == Recent(h, lo')
  {
    if h != [] {
      var n := |h| - 1;
      RecentTwice(h[..n], lo, lo');
      if h[n] > lo {
        assert (Recent(h[..n], lo) + [h[n]])[..|Recent(h[..n], lo)|] == Recent(h[..n], lo);
      }
    }
  }

  lemma {:induction false} NoCalls(calls: seq<Call>, key: string, rule: Rule)
    requires forall i :: 0 <= i < |calls| ==> calls[i].key != key
    ensures Accepted(calls, key, rule) == []
  {
    if calls != [] {
      NoCalls(calls[..|calls| - 1], key, rule);
    }
  }

  /** One more call. */
  lemma AcceptedSnoc(calls: seq<Call>, call: Call, key: string, rule: Rule)
    ensures var h := Accepted(calls, key, rule);
            Accepted(calls + [call], key, rule) == if call.key == key && Allowed(h, call.now, rule) then h + [call.now] else h
  {
    assert (calls + [call])[..|calls|] == calls;
  }

  lemma {:induction false} RecentIsWithin(h: seq<real>, lo: real, now: real)
    requires forall i :: 0 <= i < |h| ==> h[i] <= now
    ensures Recent(h, lo) == Within(h, lo, now)
  {
    if h != [] {
      RecentIsWithin(h[..|h| - 1], lo, now);
    }
  }

  /** A call of a key is accepted exactly when fewer than the limit of the key's calls were accepted in
      the window that ends with it: nobody is refused early. */
  lemma AcceptedIff(calls: seq<Call>, call: Call, rule: Rule)
    requires Ordered(calls + [call])
    ensures var h := Accepted(calls, call.key, rule);
            if |Within(h, call.now - rule.window, call.now)| < rule.limit
            then Accepted(calls + [call], call.key, rule) == h + [call.now]
            else Accepted(calls + [call], call.key, rule) == h
  {
    hide Recent, Within, Accepted;
    AcceptedSnoc(calls, call, call.key, rule);
    AllBefore(calls, call, rule);
    RecentIsWithin(Accepted(calls, call.key, rule), call.now - rule.window, call.now);
  }

  lemma AllBefore(calls: seq<Call>, call: Call, rule: Rule)
    requires Ordered(calls + [call])
    ensures forall i :: 0 <= i < |Accepted(calls, call.key, rule)| ==> Accepted(calls, call.key, rule)[i] <= call.now
  {
    if calls != [] {
      assert forall i :: 0 <= i < |calls| ==> (calls + [call])[i] == calls[i];
      assert (calls + [call])[|calls| - 1].now <= (calls + [call])[|calls|].now;
      hide Accepted;
      AcceptedSorted(calls, call.key, rule);
    }
  }

  lemma RecentSnoc(h: seq<real>, t: real, lo: real)
    requires t > lo
    ensures Recent(h + [t], lo) == Recent(h, lo) + [t]
  {
    assert (h + [t])[..|h|] == h;
  }

  /** A key's deque is its full history of accepted calls, pruned at its last cutoff. */
  ghost predicate Pruned(calls: seq<Call>, key: string, rule: Rule, deque: seq<real>, cutoff: real) {
    && deque == Recent(Accepted(calls, key, rule), cutoff)
    && calls != [] && cutoff <= calls[|calls| - 1].now - rule.window
  }

  lemma PrunedHasCalls(calls: seq<Call>, key: string, rule: Rule, deque: seq<real>, cutoff: real)
    requires Pruned(calls, key, rule, deque, cutoff)
    ensures calls != []
  {
  }

  /** The deque a call finds, pruned for it, is the recent part of the full history. */
  lemma PrunedIsRecent(calls: seq<Call>, key: string, rule: Rule, deque: seq<real>, cutoff: real, now: real)
    requires Ordered(calls) && Pruned(calls, key, rule, deque, cutoff)
    requires calls[|calls| - 1].now <= now
    ensures Sorted(deque)
    ensures Recent(deque, now - rule.window) == Recent(Accepted(calls, key, rule), now - rule.window)
  {
    hide Accepted, Recent;
    AcceptedSorted(calls, key, rule);
    RecentSorted(Accepted(calls, key, rule), cutoff);
    RecentTwice(Accepted(calls, key, rule), cutoff, now - rule.window);
  }

  /** A call of another key leaves a deque as good as it was. */
  lemma OtherCallKeepsPruned(calls: seq<Call>, call: Call, key: string, rule: Rule, deque: seq<real>, cutoff: real)
    requires Pruned(calls, key, rule, deque, cutoff) && call.key != key
    requires calls[|calls| - 1].now <= call.now
    ensures Pruned(calls + [call], key, rule, deque, cutoff)
  {
    AcceptedSnoc(calls, call, key, rule);
  }

  /** The call itself, with its decision. */
  lemma OwnCallKeepsPruned(calls: seq<Call>, call: Call, rule: Rule, deque: seq<real>, ok: bool)
    requires deque == Recent(Accepted(calls, call.key, rule), call.now - rule.window)
    requires rule.window > 0.0 && ok == (|deque| < rule.limit)
    ensures Pruned(calls + [call], call.key, rule, if ok then deque + [call.now] else deque, call.now - rule.window)
  {
    hide Accepted, Recent;
    AcceptedSnoc(calls, call, call.key, rule);
    RecentSnoc(Accepted(calls, call.key, rule), call.now, call.now - rule.window);
  }

  /** The deques of the other keys, all at once. */
  lemma OthersKeepPruned(calls: seq<Call>, call: Call, rules: map<string, Rule>, attempts: map<string, seq<real>>,
                         cutoffs: map<string, real>)
    requires attempts.Keys <= rules.Keys && cutoffs.Keys == attempts.Keys
    requires forall k :: k in attempts ==> Pruned(calls, k, rules[k], attempts[k], cutoffs[k])
    requires calls != [] ==> calls[|calls| - 1].now <= call.now
    ensures forall k :: k in attempts && k != call.key ==> Pruned(calls + [call], k, rules[k], attempts[k], cutoffs[k])
  {
    hide Pruned;
    forall k | k in attempts && k != call.key
      ensures Pruned(calls + [call], k, rules[k], attempts[k], cutoffs[k])
    {
      PrunedHasCalls(calls, k, rules[k], attempts[k], cutoffs[k]);
      OtherCallKeepsPruned(calls, call, k, rules[k], attempts[k], cutoffs[k]);
    }
  }

  /** Every key's deque is pruned, and belongs to a key that has called. */
  ghost predicate Faithful(calls: seq<Call>, rules: map<string, Rule>, attempts: map<string, seq<real>>,
          cutoffs: map<string, real>) {
    && Ordered(calls)
    && attempts.Keys <= rules.Keys && cutoffs.Keys == attempts.Keys
    && (forall k :: k in rules ==> rules[k].window > 0.0)
    && (forall i :: 0 <= i < |calls| ==> calls[i].key in attempts)
    && (forall k :: k in attempts ==> Pruned(calls, k, rules[k], attempts[k], cutoffs[k]))
  }

  /** What a call finds for its key, pruned, is the recent part of the full history. */
  lemma FoundIsRecent(calls: seq<Call>, rules: map<string, Rule>, attempts: map<string, seq<real>>,
          cutoffs: map<string, real>,
                      key: string, now: real)
    requires Faithful(calls, rules, attempts, cutoffs) && key in rules
    requires forall i :: 0 <= i < |calls| ==> calls[i].now <= now
    ensures var found := if key in attempts then attempts[key] else [];
            && Sorted(found)
            && Recent(found, now - rules[key].window) == Recent(Accepted(calls, key, rules[key]), now - rules[key].window)
  {
    hide Accepted, Recent, Pruned;
    if key in attempts {
      PrunedHasCalls(calls, key, rules[key], attempts[key], cutoffs[key]);
      PrunedIsRecent(calls, key, rules[key], attempts[key], cutoffs[key], now);
    } else {
      NoCalls(calls, key, rules[key]);
    }
  }

  lemma CallKeepsFaithful(calls: seq<Call>, rules: map<string, Rule>, attempts: map<string, seq<real>>,
                          cutoffs: map<string, real>, call: Call, deque: seq<real>)
    requires Faithful(calls, rules, attempts, cutoffs) && call.key in rules
    requires forall i :: 0 <= i < |calls| ==> calls[i].now <= call.now
    requires Pruned(calls + [call], call.key, rules[call.key], deque, call.now - rules[call.key].window)
    ensures Faithful(calls + [call], rules, attempts[call.key := deque],
                     cutoffs[call.key := call.now - rules[call.key].window])
  {
    hide Accepted, Recent, Pruned;
    OthersKeepPruned(calls, call, rules, attempts, cutoffs);
  }

  class SlidingWindowLimiter {
    var attempts: map<string, seq<real>>
    ghost var calls: seq<Call>
    ghost var cutoffs: map<string, real>
    ghost const rules: map<string, Rule>

    ghost predicate Valid()
      reads this
    {
      Faithful(calls, rules, attempts, cutoffs)
    }

    constructor (ghost rules: map<string, Rule>)
      requires forall k :: k in rules ==> rules[k].window > 0.0
      ensures Valid() && calls == [] && this.rules == rules
    {
      attempts, calls, cutoffs, this.rules := map[], [], map[], rules;
    }

    /** Popping from the left while the oldest entry has left the window. */
    method Prune(was: seq<real>, lo: real) returns (deque: seq<real>)
      requires Sorted(was)
      ensures deque == Recent(was, lo)
    {
      deque := was;
      ghost var popped := 0;
      while deque != [] && deque[0] <= lo
        invariant 0 <= popped <= |was| && deque == was[popped..]
        invariant forall i :: 0 <= i < popped ==> was[i] <= lo
        decreases |deque|
      {
        deque := deque[1..];
        popped := popped + 1;
      }
      RecentOfSorted(was, lo, popped);
    }

    /** The pruned deque decides exactly as the full history of accepted calls would. */
    method Allow(key: string, limit: int, window: real, now: real) returns (ok: bool)
      requires Valid() && key in rules && rules[key] == Rule(limit, window)
      requires forall i :: 0 <= i < |calls| ==> calls[i].now <= now
      modifies this
      ensures Valid()
      ensures calls == old(calls) + [Call(key, now)]
      ensures ok <==> Allowed(Accepted(old(calls), key, rules[key]), now, rules[key])
      ensures forall k :: k in old(attempts) && k != key ==> k in attempts && attempts[k] == old(attempts)[k]
    {
      hide Accepted, Recent, Pruned;
      ghost var call := Call(key, now);
      FoundIsRecent(calls, rules, attempts, cutoffs, key, now);
      assert rules[key].window > 0.0;
      hide Faithful;
      var deque := Prune(if key in attempts then attempts[key] else [], now - window);
      ok := |deque| < limit;
      OwnCallKeepsPruned(calls, call, rules[key], deque, ok);
      if ok {
        deque := deque + [now];
      }
      CallKeepsFaithful(calls, rules, attempts, cutoffs, call, deque);
      calls := calls + [call];
      attempts := attempts[key := deque];
      cutoffs := cutoffs[key := now - window];
    }
  }
}
