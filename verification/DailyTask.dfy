/** The daily coin donation: its video pool, its loop, and its one run a day. */
module DailyTask {
  import opened Common

  const MAX_DONATE_ATTEMPTS := 10
  const MAX_VIDEO_POOL_SIZE := 40
  const FOLLOWING_UPS_TO_TRY := 5

  datatype Video = Video(aid: string, bvid: string, title: string)

  /** What a request to the upstream leads to; an expired login is told apart from other errors. */
  datatype Reply<+T> = Answer(value: T) | ErrorRaised | AuthRaised

  datatype CoinResult = CoinResult(success: bool, retriable: bool)

  datatype Profile = Profile(
    enabled: bool, targetCoins: int, protectedCoins: int, skipWhenLv6: bool, supportUpIds: seq<string>)

  /** A coin that was accepted: the video, and how many the account had given it before. */
  datatype Coin = Coin(aid: string, before: int)

  datatype Donation = Donated(coins: nat, videos: seq<Video>) | Aborted(auth: bool)

  function Untried(videos: seq<Video>, tried: set<string>): (r: seq<Video>)
    ensures forall v :: v in r <==> v in videos && v.aid !in tried
  {
    if videos == [] then []
    else if videos[0].aid !in tried then [videos[0]] + Untried(videos[1..], tried)
    else Untried(videos[1..], tried)
  }

  function WithId(videos: seq<Video>): (r: seq<Video>)
    ensures forall v :: v in r <==> v in videos && v.aid != ""
  {
    if videos == [] then []
    else if videos[0].aid != "" then [videos[0]] + WithId(videos[1..])
    else WithId(videos[1..])
  }

  /** No video that can be tried. */
  predicate NoneLeft(videos: seq<Video>, tried: set<string>) {
    WithId(Untried(videos, tried)) == []
  }

  lemma LeftOrNot(videos: seq<Video>, tried: set<string>)
    ensures NoneLeft([], tried)
    ensures var left := WithId(Untried(videos, tried));
            && (left == [] <==> NoneLeft(videos, tried))
            && (left != [] ==> left[0] in left)
            && forall v :: v in left ==> v in videos && v.aid !in tried && v.aid != ""
  {
  }

  function Min(a: int, b: int): int {
    if a < b then a else b
  }

  /** How many coins a run may give: what the day still lacks, what the balance leaves above the
      protected coins, and no more than the attempts. */
  function Allowance(profile: Profile, level: int, todayExp: int, balance: real): int {
    if profile.targetCoins <= 0 || (profile.skipWhenLv6 && level >= 6) || balance <= 0.0 then 0
    else Min(Min(profile.targetCoins - todayExp / 10, balance.Floor - profile.protectedCoins), MAX_DONATE_ATTEMPTS)
  }

  /** A search for videos and its answer; one of an uploader that raises counts as no videos. */
  datatype Query =
    | OfUploader(mid: string, videos: Reply<seq<Video>>)
    | OfFollowings(mids: Reply<seq<string>>)
    | OfRanking(videos: Reply<seq<Video>>)

  /** The untried videos that searches have found. */
  function Found(qs: seq<Query>, tried: set<string>): seq<Video> {
    if qs == [] then []
    else
      Found(qs[..|qs| - 1], tried) + FoundBy(qs[|qs| - 1], tried)
  }

  /** Searches of some uploaders, one after the other, as far as they went. */
  ghost predicate AreOf(qs: seq<Query>, mids: seq<string>) {
    |qs| <= |mids| && forall i :: 0 <= i < |qs| ==> qs[i].OfUploader? && qs[i].mid == mids[i]
  }

  /** The followed uploaders that are tried. */
  function FirstFive(mids: Reply<seq<string>>): seq<string> {
    if !mids.Answer? then []
    else if |mids.value| > FOLLOWING_UPS_TO_TRY then mids.value[..FOLLOWING_UPS_TO_TRY]
    else mids.value
  }

  function FoundBy(q: Query, tried: set<string>): seq<Video> {
    if !q.OfFollowings? && q.videos.Answer? then Untried(q.videos.value, tried) else []
  }

  lemma Joined<T>(a: seq<T>, b: seq<T>, c: seq<T>)
    ensures a + (b + c) == a + b + c
  {
  }

  lemma FoundOneMore(qs: seq<Query>, q: Query, tried: set<string>)
    ensures Found(qs + [q], tried) == Found(qs, tried) + FoundBy(q, tried)
  {
    hide FoundBy;
    assert (qs + [q])[..|qs + [q]| - 1] == qs;
  }

  lemma {:induction false} FoundTwice(a: seq<Query>, b: seq<Query>, tried: set<string>)
    ensures Found(a + b, tried) == Found(a, tried) + Found(b, tried)
  {
    hide FoundBy;
    if b == [] {
      assert a + b == a;
    } else {
      var n := |b| - 1;
      assert a + b == (a + b[..n]) + [b[n]] && b == b[..n] + [b[n]];
      FoundTwice(a, b[..n], tried);
      FoundOneMore(a + b[..n], b[n], tried);
      FoundOneMore(b[..n], b[n], tried);
    }
  }

  /** Every uploader, the list of those followed, the first five of them, and the ranking. */
  ghost predicate AskedAll(qs: seq<Query>, upIds: seq<string>) {
    var n := |upIds|;
    && |qs| >= n + 2 && AreOf(qs[..n], upIds) && qs[n].OfFollowings? && qs[|qs| - 1].OfRanking?
    && |qs| == n + 2 + |FirstFive(qs[n].mids)| && AreOf(qs[n + 1..|qs| - 1], FirstFive(qs[n].mids))
  }

  lemma AllAsked(one: seq<Query>, upIds: seq<string>, mids: Reply<seq<string>>, three: seq<Query>,
                 ranking: Reply<seq<Video>>)
    requires AreOf(one, upIds) && |one| == |upIds| && AreOf(three, FirstFive(mids)) && |three| == |FirstFive(mids)|
    ensures AskedAll(one + [OfFollowings(mids)] + three + [OfRanking(ranking)], upIds)
  {
    var qs := one + [OfFollowings(mids)] + three + [OfRanking(ranking)];
    var n := |upIds|;
    assert qs[..n] == one && qs[n] == OfFollowings(mids) && qs[n + 1..|qs| - 1] == three;
  }

  lemma AskedOneMore(qs: seq<Query>, mids: seq<string>, q: Query)
    requires |qs| < |mids| && AreOf(qs, mids) && q.OfUploader? && q.mid == mids[|qs|]
    ensures AreOf(qs + [q], mids)
  {
  }

  /** What came of one turn of the donation loop: no untried video, or the login expired in the search
      for one, or a video that was passed over, or one that a coin was requested for. */
  datatype Try =
    | NoVideo
    | SearchExpired
    | PassedOver(aid: string, onVideo: Reply<int>)
    | Requested(aid: string, before: int, result: Reply<CoinResult>)

  /** The coins that were accepted, in order. */
  function AcceptedOf(tries: seq<Try>): seq<Coin> {
    if tries == [] then []
    else
      var n := |tries| - 1;
      if Accepts(tries[n]) then AcceptedOf(tries[..n]) + [Coin(tries[n].aid, tries[n].before)] else AcceptedOf(tries[..n])
  }

  predicate Accepts(t: Try) {
    t.Requested? && t.result.Answer? && t.result.value.success
  }

  /** Nothing is left to try, or a request was refused for good. */
  predicate GivesUp(t: Try) {
    t.NoVideo? || (t.Requested? && t.result.Answer? && !t.result.value.success && !t.result.value.retriable)
  }

  /** An expired login, or a coin request that raised. */
  predicate Breaks(t: Try) {
    t.SearchExpired? || (t.PassedOver? && t.onVideo.AuthRaised?) || (t.Requested? && !t.result.Answer?)
  }

  predicate ByLogin(t: Try) {
    t.SearchExpired? || (t.PassedOver? && t.onVideo.AuthRaised?) || (t.Requested? && t.result.AuthRaised?)
  }

  /** A video is passed over for one that cannot be looked up or has two coins from the account, and
      coins are requested only for others. */
  predicate Fair(t: Try) {
    && (t.PassedOver? ==> !t.onVideo.Answer? || t.onVideo.value >= 2)
    && (t.Requested? ==> t.before < 2 && t.aid != "")
  }

  /** The turns of one run that wants `need` coins: at most ten, each but the last going on, and the
      last one ending the run only if it must. */
  ghost predicate Turns(tries: seq<Try>, need: nat, d: Donation) {
    && |tries| <= 10 && |AcceptedOf(tries)| <= need
    && (forall i :: 0 <= i < |tries| ==> Fair(tries[i]))
    && (forall i :: 0 <= i < |tries| - 1 ==> !GivesUp(tries[i]) && !Breaks(tries[i]))
    && (d.Aborted? <==> tries != [] && Breaks(tries[|tries| - 1]))
    && (d.Aborted? ==> (d.auth <==> ByLogin(tries[|tries| - 1])))
    && (d.Donated? ==>
          && d.coins == |AcceptedOf(tries)|
          && (d.coins == need || |tries| == 10 || (tries != [] && GivesUp(tries[|tries| - 1]))))
  }

  predicate HasVideo(t: Try) {
    t.PassedOver? || t.Requested?
  }

  /** The videos a run has tried. */
  function TriedIn(tries: seq<Try>): set<string> {
    set i | 0 <= i < |tries| && HasVideo(tries[i]) :: tries[i].aid
  }

  /** Coins on pairwise distinct videos that had fewer than two from the account. */
  ghost predicate Sparing(coins: seq<Coin>) {
    && (forall i, j :: 0 <= i < j < |coins| ==> coins[i].aid != coins[j].aid)
    && (forall i :: 0 <= i < |coins| ==> coins[i].before < 2 && coins[i].aid != "")
  }

  /** A run that came to its end reports the coins it gave. */
  ghost predicate Reports(d: Donation, coins: seq<Coin>)
    requires d.Donated?
  {
    d.coins == |coins| == |d.videos| && forall i :: 0 <= i < |coins| ==> d.videos[i].aid == coins[i].aid
  }

  /** Turns none of which ended the run, save perhaps the last by giving up. */
  ghost predicate GoesOn(tries: seq<Try>) {
    && (forall i :: 0 <= i < |tries| ==> !Breaks(tries[i]))
    && (forall i :: 0 <= i < |tries| - 1 ==> !GivesUp(tries[i]))
  }

  ghost predicate Listed(done: seq<Video>, coins: seq<Coin>, tried: set<string>) {
    |done| == |coins| && forall i :: 0 <= i < |done| ==> done[i].aid == coins[i].aid && done[i].aid in tried
  }

  /** What the loop has written down of its turns. */
  ghost predicate SoFar(tries: seq<Try>, tried: set<string>, done: seq<Video>) {
    && tried == TriedIn(tries) && Sparing(AcceptedOf(tries))
    && (forall i :: 0 <= i < |tries| ==> Fair(tries[i]))
    && Listed(done, AcceptedOf(tries), tried)
  }

  lemma NothingTried()
    ensures SoFar([], {}, []) && AcceptedOf([]) == [] && GoesOn([])
  {
  }

  lemma OneMore(tries: seq<Try>, tried: set<string>, done: seq<Video>, t: Try, video: Option<Video>)
    requires SoFar(tries, tried, done) && Fair(t)
    requires HasVideo(t) ==> t.aid !in tried && video.Some? && video.value.aid == t.aid
    ensures Accepts(t) ==> HasVideo(t) && video.Some?
    ensures HasVideo(t) <==> t.PassedOver? || t.Requested?
    ensures AcceptedOf(tries + [t]) == AcceptedOf(tries) + AcceptedOf([t])
    ensures SoFar(tries + [t], if HasVideo(t) then tried + {t.aid} else tried,
                  if Accepts(t) then done + [video.value] else done)
    ensures Breaks(t) ==> !GivesUp(t) && !Accepts(t)
    ensures t.NoVideo? ==> !HasVideo(t) && !Accepts(t)
  {
    hide TriedIn, AcceptedOf, Accepts, HasVideo, Breaks, GivesUp, Fair, Sparing, Listed;
    TryKinds(t);
    NothingTried();
    TriesSnoc(tries, t);
    TriesSnoc([], t);
    assert [] + [t] == [t];
    assert forall i :: 0 <= i < |tries| ==> (tries + [t])[i] == tries[i];
    assert AcceptedOf(tries) + [] == AcceptedOf(tries) && TriedIn(tries) + {} == TriedIn(tries);
    if Accepts(t) {
      MoreListed(done, AcceptedOf(tries), tried, video.value, Coin(t.aid, t.before));
    } else if HasVideo(t) {
      ListedStays(done, AcceptedOf(tries), tried, tried + {t.aid});
    }
  }

  lemma MoreListed(done: seq<Video>, coins: seq<Coin>, tried: set<string>, video: Video, coin: Coin)
    requires Listed(done, coins, tried) && Sparing(coins)
    requires coin.aid == video.aid && coin.aid !in tried && coin.before < 2 && coin.aid != ""
    ensures Listed(done + [video], coins + [coin], tried + {video.aid}) && Sparing(coins + [coin])
  {
  }

  lemma ListedStays(done: seq<Video>, coins: seq<Coin>, tried: set<string>, tried': set<string>)
    requires Listed(done, coins, tried) && tried <= tried'
    ensures Listed(done, coins, tried')
  {
  }

  lemma TryKinds(t: Try)
    ensures Accepts(t) ==> HasVideo(t) && t.Requested?
    ensures Accepts(t) && Fair(t) ==> t.before < 2 && t.aid != ""
    ensures HasVideo(t) <==> t.PassedOver? || t.Requested?
    ensures Breaks(t) ==> !GivesUp(t) && !Accepts(t)
    ensures t.NoVideo? ==> !HasVideo(t) && !Accepts(t)
  {
  }

  lemma LoopEnds(tries: seq<Try>, tried: set<string>, done: seq<Video>, need: nat)
    requires SoFar(tries, tried, done) && GoesOn(tries) && |tries| <= 10 && |done| <= need
    requires |done| == need || |tries| == 10 || (tries != [] && GivesUp(tries[|tries| - 1]))
    ensures Turns(tries, need, Donated(|done|, done))
    ensures tried == TriedIn(tries) && |AcceptedOf(tries)| <= need && Sparing(AcceptedOf(tries))
    ensures Reports(Donated(|done|, done), AcceptedOf(tries))
  {
  }

  lemma LoopBreaks(tries: seq<Try>, tried: set<string>, done: seq<Video>, need: nat, t: Try, auth: bool)
    requires SoFar(tries, tried, done) && GoesOn(tries) && |tries| < 10 && |done| <= need
    requires tries != [] ==> !GivesUp(tries[|tries| - 1])
    requires Fair(t) && Breaks(t) && (auth <==> ByLogin(t))
    ensures Turns(tries + [t], need, Aborted(auth)) && !t.NoVideo?
    ensures |AcceptedOf(tries + [t])| <= need && Sparing(AcceptedOf(tries + [t]))
  {
    TriesSnoc(tries, t);
  }

  class DonationRun {
    /** The candidate videos, shared by the pool's filling and its use. */
    var pool: seq<Video>
    /** The pools that searching has filled, and the turns taken. */
    ghost var fills: seq<seq<Video>>
    ghost var asked: seq<Query>
    ghost var tries: seq<Try>
    /** Every coin the upstream accepted, whatever became of the run. */
    ghost var coins: seq<Coin>

    constructor ()
      ensures pool == [] && coins == [] && fills == [] && tries == [] && asked == []
    {
      pool, coins, fills, tries, asked := [], [], [], [], [];
    }

    /** A search answers with any videos; errors other than an expired login count as no videos. */
    method SafeSearchUp(mid: string) returns (r: Reply<seq<Video>>)
      modifies this`asked
      ensures !r.ErrorRaised? && asked == old(asked) + [OfUploader(mid, r)]
    {
      r := *;
      if r.ErrorRaised? {
        r := Answer([]);
      }
      asked := asked + [OfUploader(mid, r)];
    }

    method SearchOne(mid: string, tried: set<string>) returns (auth: bool, ghost q: Query)
      modifies this`pool, this`asked
      ensures q.OfUploader? && q.mid == mid && (auth <==> q.videos.AuthRaised?)
      ensures asked == old(asked) + [q] && pool == old(pool) + FoundBy(q, tried)
    {
      hide Untried;
      var r := SafeSearchUp(mid);
      q := OfUploader(mid, r);
      auth := r.AuthRaised?;
      if !auth {
        pool := pool + Untried(r.value, tried);
      }
    }

    /** Searching a list of uploaders until the pool is full. */
    method SearchAll(mids: seq<string>, tried: set<string>) returns (auth: bool, ghost qs: seq<Query>)
      modifies this`pool, this`asked
      ensures asked == old(asked) + qs && AreOf(qs, mids) && pool == old(pool) + Found(qs, tried)
      ensures !auth && |pool| < MAX_VIDEO_POOL_SIZE ==> |qs| == |mids|
    {
      auth := false;
      qs := [];
      var i := 0;
      assert Found([], tried) == [] && AreOf([], mids);
      hide Found, FoundBy, AreOf, Untried;
      while i < |mids| && !auth
        invariant i == |qs| <= |mids| && asked == old(asked) + qs && AreOf(qs, mids)
        invariant pool == old(pool) + Found(qs, tried)
      {
        if |pool| >= MAX_VIDEO_POOL_SIZE {
          return;
        }
        ghost var q;
        auth, q := SearchOne(mids[i], tried);
        FoundOneMore(qs, q, tried);
        Joined(old(pool), Found(qs, tried), FoundBy(q, tried));
        Joined(old(asked), qs, [q]);
        AskedOneMore(qs, mids, q);
        qs := qs + [q];
        i := i + 1;
      }
    }

    /** The configured uploaders, then those followed, then the ranking; the pool stays empty only when
        all of them have been asked. */
    method FillPool(upIds: seq<string>, tried: set<string>) returns (auth: bool, ghost qs: seq<Query>)
      modifies this`pool, this`asked
      ensures asked == old(asked) + qs && pool == old(pool) + Found(qs, tried)
      ensures !auth && pool == [] ==> AskedAll(qs, upIds)
    {
      hide Found, AreOf, Untried, FirstFive, AskedAll;
      ghost var one;
      auth, one := SearchAll(upIds, tried);
      qs := one;
      if auth || pool != [] {
        return;
      }
      var followings: Reply<seq<string>> := *;
      asked := asked + [OfFollowings(followings)];
      FoundOneMore(one, OfFollowings(followings), tried);
      qs := one + [OfFollowings(followings)];
      if followings.AuthRaised? {
        return true, qs;
      }
      ghost var three;
      auth, three := SearchAll(FirstFive(followings), tried);
      FoundTwice(qs, three, tried);
      qs := qs + three;
      if auth || pool != [] {
        return;
      }
      var ranking: Reply<seq<Video>> := *;
      asked := asked + [OfRanking(ranking)];
      FoundOneMore(qs, OfRanking(ranking), tried);
      AllAsked(one, upIds, followings, three, ranking);
      qs := qs + [OfRanking(ranking)];
      if ranking.AuthRaised? {
        return true, qs;
      }
      if ranking.Answer? {
        pool := pool + Untried(ranking.value, tried);
      }
    }

    /** An untried video with an id, refilling the pool at most three times. */
    method NextVideo(upIds: seq<string>, tried: set<string>) returns (r: Reply<Option<Video>>)
      modifies this`pool, this`fills, this`asked
      ensures old(fills) <= fills && |fills| <= |old(fills)| + 3
      ensures forall k :: |old(fills)| <= k < |fills| - 1 ==> fills[k] != [] && NoneLeft(fills[k], tried)
      ensures fills != old(fills) ==> NoneLeft(old(pool), tried)
      ensures r.AuthRaised? ==> fills != old(fills)
      ensures r == Answer(None) ==>
                && NoneLeft(old(pool), tried) && fills != old(fills)
                && NoneLeft(fills[|fills| - 1], tried)
                && (fills[|fills| - 1] == [] || |fills| == |old(fills)| + 3)
                && (fills[|fills| - 1] == [] ==> exists before, qs :: asked == before + qs && AskedAll(qs, upIds))
      ensures r.Answer? && r.value.Some? ==>
                r.value.value in if fills == old(fills) then old(pool) else fills[|fills| - 1]
      ensures !r.ErrorRaised?
      ensures r.Answer? && r.value.Some? ==> r.value.value.aid !in tried && r.value.value.aid != "" && r.value.value in pool
      ensures r == Answer(None) ==> NoneLeft(pool, tried)
    {
      hide Found, AskedAll, AreOf, NoneLeft, WithId, Untried;
      var refills := 0;
      while true
        invariant 0 <= refills <= 3 && old(fills) <= fills && |fills| == |old(fills)| + refills
        invariant pool == if refills == 0 then old(pool) else fills[|fills| - 1]
        invariant refills > 0 ==> NoneLeft(old(pool), tried) && pool != []
        invariant forall k :: |old(fills)| <= k < |fills| - 1 ==> fills[k] != [] && NoneLeft(fills[k], tried)
        decreases 3 - refills
      {
        var untried := WithId(Untried(pool, tried));
        LeftOrNot(pool, tried);
        if untried != [] {
          var video :| video in untried;
          return Answer(Some(video));
        }
        pool := [];
        if refills >= 3 {
          return Answer(None);
        }
        refills := refills + 1;
        ghost var before, qs := asked, [];
        var auth;
        auth, qs := FillPool(upIds, tried);
        fills := fills + [pool];
        if auth {
          return AuthRaised;
        }
        if pool == [] {
          assert asked == before + qs && AskedAll(qs, upIds);
          return Answer(None);
        }
      }
    }

    /** The donation, and the turns it took: none where there is no allowance, and otherwise those of the
        loop. In every outcome, an error in the middle included, the coins given are those accepted in its
        turns, within the allowance and on pairwise distinct videos that had fewer than two from this
        account; a run that comes to its end reports exactly them. */
    method DonateCoins(profile: Profile, level: int, todayExp: Reply<int>, balance: Reply<real>)
      returns (d: Donation, ghost turns: seq<Try>)
      modifies this
      ensures tries == old(tries) + turns && coins == old(coins) + AcceptedOf(turns)
      ensures if todayExp.Answer? && balance.Answer? && Allowance(profile, level, todayExp.value, balance.value) > 0
              then Turns(turns, Allowance(profile, level, todayExp.value, balance.value), d)
              else turns == [] && d == Donated(0, [])
      ensures Sparing(AcceptedOf(turns)) && |AcceptedOf(turns)| <= 10 && (d.Donated? ==> Reports(d, AcceptedOf(turns)))
      ensures AcceptedOf(turns) != [] ==>
                && todayExp.Answer? && balance.Answer?
                && |AcceptedOf(turns)| <= Allowance(profile, level, todayExp.value, balance.value)
    {
      turns := [];
      if profile.targetCoins <= 0 || (profile.skipWhenLv6 && level >= 6) || !todayExp.Answer? {
        return Donated(0, []), [];
      }
      var already := todayExp.value / 10;
      var need := profile.targetCoins - already;
      if need <= 0 || !balance.Answer? || balance.value <= 0.0 {
        return Donated(0, []), [];
      }
      var affordable := balance.value.Floor - profile.protectedCoins;
      if affordable <= 0 {
        return Donated(0, []), [];
      }
      need := Min(Min(need, affordable), MAX_DONATE_ATTEMPTS);
      pool := [];
      d, turns := GiveCoins(profile.supportUpIds, need);
    }

    /** One turn of the loop: an untried video, whether it may have a coin, and the request. */
    method TakeOne(upIds: seq<string>, tried: set<string>) returns (t: Try, video: Option<Video>)
      modifies this
      ensures tries == old(tries) + [t] && coins == old(coins) + AcceptedOf([t]) && Fair(t)
      ensures HasVideo(t) ==> t.aid !in tried && video.Some? && video.value.aid == t.aid
      ensures t.NoVideo? ==> fills != [] && NoneLeft(fills[|fills| - 1], tried)
    {
      hide Untried, WithId, NoneLeft;
      var next := NextVideo(upIds, tried);
      video := None;
      if next.AuthRaised? {
        t := SearchExpired;
      } else if next.value.None? {
        t := NoVideo;
      } else {
        video := next.value;
        var onVideo: Reply<int> := *;
        if !onVideo.Answer? || onVideo.value >= 2 {
          t := PassedOver(video.value.aid, onVideo);
        } else {
          var result: Reply<CoinResult> := *;
          t := Requested(video.value.aid, onVideo.value, result);
          if result.Answer? && result.value.success {
            coins := coins + [Coin(video.value.aid, onVideo.value)];
          }
        }
      }
      tries := tries + [t];
      assert [t][..0] == [];
    }

    /** The donation loop. */
    method GiveCoins(upIds: seq<string>, need: nat) returns (d: Donation, ghost turns: seq<Try>)
      requires need > 0
      modifies this
      ensures tries == old(tries) + turns && coins == old(coins) + AcceptedOf(turns)
      ensures Turns(turns, need, d) && |AcceptedOf(turns)| <= need && Sparing(AcceptedOf(turns))
      ensures d.Donated? ==> Reports(d, AcceptedOf(turns))
      ensures turns != [] && turns[|turns| - 1].NoVideo? ==>
                fills != [] && NoneLeft(fills[|fills| - 1], TriedIn(turns))
    {
      turns := [];
      var tried: set<string> := {};
      var done: seq<Video> := [];
      var success, attempts := 0, 0;
      var stop := false;
      hide Untried, WithId, NoneLeft, GivesUp, Breaks, Accepts, Fair, HasVideo, AcceptedOf, TriedIn, SoFar, Turns;
      NothingTried();
      while !stop && success < need && attempts < MAX_DONATE_ATTEMPTS
        invariant tries == old(tries) + turns && coins == old(coins) + AcceptedOf(turns)
        invariant |turns| == attempts <= 10 && success == |done| <= need
        invariant SoFar(turns, tried, done)
        invariant GoesOn(turns) && (stop <==> turns != [] && GivesUp(turns[|turns| - 1]))
        invariant turns != [] && turns[|turns| - 1].NoVideo? ==> fills != [] && NoneLeft(fills[|fills| - 1], tried)
        decreases MAX_DONATE_ATTEMPTS - attempts, !stop
      {
        attempts := attempts + 1;
        var t, video := TakeOne(upIds, tried);
        OneMore(turns, tried, done, t, video);
        if Breaks(t) {
          LoopBreaks(turns, tried, done, need, t, ByLogin(t));
          return Aborted(ByLogin(t)), turns + [t];
        }
        turns := turns + [t];
        if HasVideo(t) {
          tried := tried + {t.aid};
        }
        if Accepts(t) {
          success := success + 1;
          done := done + [video.value];
        }
        stop := GivesUp(t);
      }
      d := Donated(success, done);
      LoopEnds(turns, tried, done, need);
    }
  }

  lemma TriesSnoc(tries: seq<Try>, t: Try)
    ensures AcceptedOf(tries + [t]) == AcceptedOf(tries) + if Accepts(t) then [Coin(t.aid, t.before)] else []
    ensures TriedIn(tries + [t]) == TriedIn(tries) + if HasVideo(t) then {t.aid} else {}
  {
    assert (tries + [t])[..|tries|] == tries;
    forall a | a in TriedIn(tries)
      ensures a in TriedIn(tries + [t])
    {
      var i :| 0 <= i < |tries| && HasVideo(tries[i]) && tries[i].aid == a;
      assert (tries + [t])[i] == tries[i];
    }
    if HasVideo(t) {
      assert (tries + [t])[|tries|] == t;
    }
  }

  /** `n` coins more, each worth ten points, stay within the target, leave the protected coins, and are
      no more than ten. */
  predicate MayGive(profile: Profile, todayExp: int, balance: real, n: int) {
    && todayExp < 10 * (profile.targetCoins - n + 1)
    && (profile.protectedCoins + n) as real <= balance
    && n <= 10
  }

  /** What a run may give: nothing where donating is switched off, skipped at level six or there is no
      balance, and otherwise the most that is within the target, the balance and ten. */
  lemma AllowanceIs(profile: Profile, level: int, todayExp: int, balance: real)
    ensures var a := Allowance(profile, level, todayExp, balance);
            && (profile.targetCoins <= 0 || (profile.skipWhenLv6 && level >= 6) || balance <= 0.0 ==> a == 0)
            && (profile.targetCoins > 0 && !(profile.skipWhenLv6 && level >= 6) && balance > 0.0 ==>
                  forall n :: MayGive(profile, todayExp, balance, n) <==> n <= a)
  {
    forall n
      ensures MayGive(profile, todayExp, balance, n) <==>
              n <= profile.targetCoins - todayExp / 10 && n <= balance.Floor - profile.protectedCoins && n <= 10
    {
      TensBelow(todayExp, profile.targetCoins - n);
      WholeBelow(balance, profile.protectedCoins + n);
    }
  }

  lemma TensBelow(x: int, m: int)
    ensures x / 10 <= m <==> x < 10 * (m + 1)
  {
  }

  lemma WholeBelow(x: real, m: int)
    ensures m <= x.Floor <==> m as real <= x
  {
    assert x.Floor as real <= x < (x.Floor + 1) as real;
  }

  /** Whatever is given keeps the day's target and the protected coins. */
  lemma AllowanceProtects(profile: Profile, level: int, todayExp: int, balance: real, given: nat)
    requires 0 < given <= Allowance(profile, level, todayExp, balance)
    ensures given <= profile.targetCoins - todayExp / 10
    ensures balance.Floor - given >= profile.protectedCoins
    ensures given <= 10
  {
  }

  // ---------------------------------------------------------------- once a day

  datatype DayStatus = Skipped | Running | Success | Partial

  datatype DayKey = DayKey(account: AccountId, date: string)

  /** One run of the daily task: whether the profile is enabled, whether the requests before the
      record is written succeed, and how the part after it ends. */
  datatype DayRun = DayRun(enabled: bool, prepared: bool, ending: Ending)

  /** `StoppedBefore` is an exception between the record and the coins, as when watching or sharing
      finds the login expired; `StoppedAfter` one while coins are given or later. */
  datatype Ending = Completed | Incomplete | StoppedBefore | StoppedAfter

  datatype DayOutcome = DaySkipped | DayFailed | DayDone(status: DayStatus)

  /** The day's record after a run, whether the run came to donating, and how it ended. Inserting
      a second record for an account and a day violates a unique constraint: an enabled run
      turns that into a skip, a disabled one fails on it. */
  function RunDay(rows: map<DayKey, DayStatus>, key: DayKey, run: DayRun): (map<DayKey, DayStatus>, bool, DayOutcome) {
    if !run.enabled then
      if key in rows then (rows, false, DayFailed) else (rows[key := Skipped], false, DaySkipped)
    else if key in rows && (rows[key] == Success || rows[key] == Partial) then (rows, false, DaySkipped)
    else if !run.prepared then (rows, false, DayFailed)
    else if key in rows then (rows, false, DaySkipped)
    else
      match run.ending
      case Completed => (rows[key := Success], true, DayDone(Success))
      case Incomplete => (rows[key := Partial], true, DayDone(Partial))
      case StoppedBefore => (rows[key := Running], false, DayFailed)
      case StoppedAfter => (rows[key := Running], true, DayFailed)
  }

  datatype DayCall = DayCall(key: DayKey, run: DayRun)

  /** The records after a sequence of runs, and how often each account-day came to donating. */
  function RunDays(rows: map<DayKey, DayStatus>, calls: seq<DayCall>): (map<DayKey, DayStatus>, multiset<DayKey>) {
    if calls == [] then (rows, multiset{})
    else
      var n := |calls| - 1;
      var before := RunDays(rows, calls[..n]);
      var r := RunDay(before.0, calls[n].key, calls[n].run);
      (r.0, if r.1 then before.1 + multiset{calls[n].key} else before.1)
  }

  /** Over any runs, an account-day comes to donating at most once, and not at all when it
      already had a record. */
  lemma {:induction false} DonatesAtMostOnce(rows: map<DayKey, DayStatus>, calls: seq<DayCall>, key: DayKey)
    ensures RunDays(rows, calls).1[key] <= 1
    ensures rows.Keys <= RunDays(rows, calls).0.Keys
    ensures RunDays(rows, calls).1[key] == 1 ==> key in RunDays(rows, calls).0 && key !in rows
  {
    if calls != [] {
      var n := |calls| - 1;
      DonatesAtMostOnce(rows, calls[..n], key);
      DayStep(RunDays(rows, calls[..n]).0, calls[n].key, calls[n].run, key);
      hide RunDay;
    }
  }

  /** It does so exactly when the first run of the day that leaves a record is an enabled one that
      gets as far as the coins. A day whose first record a disabled run leaves, or one that finds the
      login expired while watching or sharing, stays without a donation whatever follows. */
  lemma {:induction false} DonatesIff(rows: map<DayKey, DayStatus>, calls: seq<DayCall>, key: DayKey)
    requires key !in rows
    ensures RunDays(rows, calls).1[key] == 1 <==>
            FirstRecording(calls, key).Some? && ReachesCoins(FirstRecording(calls, key).value)
    ensures key in RunDays(rows, calls).0 <==> FirstRecording(calls, key).Some?
  {
    if calls != [] {
      var n := |calls| - 1;
      DonatesIff(rows, calls[..n], key);
      DonatesAtMostOnce(rows, calls[..n], key);
      DayStep(RunDays(rows, calls[..n]).0, calls[n].key, calls[n].run, key);
      hide RunDay;
    }
  }

  predicate ReachesCoins(run: DayRun) {
    run.enabled && !run.ending.StoppedBefore?
  }

  /** What one run does to the record of a day. */
  lemma DayStep(rows: map<DayKey, DayStatus>, key: DayKey, run: DayRun, other: DayKey)
    ensures RunDay(rows, key, run).1 <==> key !in rows && run.prepared && ReachesCoins(run)
    ensures other in RunDay(rows, key, run).0 <==> other in rows || (other == key && (!run.enabled || run.prepared))
    ensures rows.Keys <= RunDay(rows, key, run).0.Keys
  {
  }

  /** The first run of an account-day that is disabled, or enabled and prepared. */
  function FirstRecording(calls: seq<DayCall>, key: DayKey): Option<DayRun> {
    if calls == [] then None
    else
      var n := |calls| - 1;
      var first := FirstRecording(calls[..n], key);
      if first.Some? then first
      else if calls[n].key == key && (!calls[n].run.enabled || calls[n].run.prepared) then Some(calls[n].run)
      else None
  }

  /** Whether a list of coins is one a day allows. */
  ghost predicate Moderate(coins: seq<Coin>) {
    |coins| <= 10 && Sparing(coins)
  }

  lemma IsModerate(coins: seq<Coin>)
    requires |coins| <= 10 && Sparing(coins)
    ensures Moderate(coins)
  {
  }

  class DailyTaskService {
    var rows: map<DayKey, DayStatus>
    /** The coins given for an account on a day, by whatever runs. */
    ghost var given: map<DayKey, seq<Coin>>

    ghost predicate Valid()
      reads this
    {
      forall k :: k in given ==> k in rows && Moderate(given[k])
    }

    constructor ()
      ensures Valid() && rows == map[] && given == map[]
    {
      rows, given := map[], map[];
    }

    method Skip(key: DayKey, existing: bool) returns (outcome: DayOutcome)
      requires existing ==> key in rows
      modifies this`rows
      ensures existing ==> rows == old(rows) && outcome == DaySkipped
      ensures !existing && key in old(rows) ==> rows == old(rows) && outcome == DayFailed
      ensures !existing && key !in old(rows) ==> rows == old(rows)[key := Skipped] && outcome == DaySkipped
    {
      if existing {
        return DaySkipped;
      }
      if key in rows {
        return DayFailed;
      }
      rows := rows[key := Skipped];
      outcome := DaySkipped;
    }

    /** One run: `watch` and `share` are what those parts lead to. However runs follow each other,
        the coins of an account-day come from one of them, within that one's allowance. */
    method RunOnce(key: DayKey, profile: Profile, prepared: bool, watch: Reply<bool>, share: Reply<bool>, level: int,
                   todayExp: Reply<int>, balance: Reply<real>)
      returns (outcome: DayOutcome, ghost run: DayRun, ghost turns: seq<Try>)
      requires Valid()
      modifies this
      ensures Valid()
      ensures run.enabled == profile.enabled && run.prepared == prepared
      ensures run.ending.StoppedBefore? <==> watch.AuthRaised? || share.AuthRaised?
      ensures rows == RunDay(old(rows), key, run).0 && outcome == RunDay(old(rows), key, run).2
      ensures forall k :: k != key ==> Get(rows, k) == Get(old(rows), k) && Get(given, k) == Get(old(given), k)
      ensures !RunDay(old(rows), key, run).1 ==> given == old(given)
      ensures RunDay(old(rows), key, run).1 ==>
                && key in given && Moderate(given[key]) && given[key] == AcceptedOf(turns)
                && (todayExp.Answer? && balance.Answer?
                    && Allowance(profile, level, todayExp.value, balance.value) > 0 ==>
                      exists d :: Turns(turns, Allowance(profile, level, todayExp.value, balance.value), d))
                && (given[key] != [] ==>
                      && todayExp.Answer? && balance.Answer?
                      && |given[key]| <= Allowance(profile, level, todayExp.value, balance.value))
                && (outcome == DayDone(Partial) ==> given[key] == [])
    {
      hide AcceptedOf, Allowance, Turns, Moderate;
      turns := [];
      run := DayRun(profile.enabled, prepared,
                    if watch.AuthRaised? || share.AuthRaised? then StoppedBefore else Completed);
      if !profile.enabled {
        outcome := Skip(key, false);
        return;
      }
      if key in rows && (rows[key] == Success || rows[key] == Partial) {
        outcome := Skip(key, true);
        return;
      }
      if !prepared {
        outcome := DayFailed;
        return;
      }
      if key in rows {
        outcome := Skip(key, true);
        return;
      }
      rows := rows[key := Running];
      if watch.AuthRaised? || share.AuthRaised? {
        outcome := DayFailed;
        return;
      }
      ghost var ending;
      outcome, ending, turns := Donate(key, profile, watch == Answer(true) || share == Answer(true), level, todayExp,
                                       balance);
      run := run.(ending := ending);
    }

    /** From the coins to the day's final record. */
    method Donate(key: DayKey, profile: Profile, watchedOrShared: bool, level: int, todayExp: Reply<int>,
                  balance: Reply<real>)
      returns (outcome: DayOutcome, ghost ending: Ending, ghost turns: seq<Try>)
      requires Valid() && key in rows && rows[key] == Running
      modifies this
      ensures Valid() && !ending.StoppedBefore?
      ensures rows == (match ending
                       case Completed => old(rows)[key := Success]
                       case Incomplete => old(rows)[key := Partial]
                       case _ => old(rows))
      ensures outcome == (match ending
                          case Completed => DayDone(Success)
                          case Incomplete => DayDone(Partial)
                          case _ => DayFailed)
      ensures given == old(given)[key := AcceptedOf(turns)] && Moderate(AcceptedOf(turns))
      ensures AcceptedOf(turns) != [] ==>
                && todayExp.Answer? && balance.Answer?
                && |AcceptedOf(turns)| <= Allowance(profile, level, todayExp.value, balance.value)
      ensures todayExp.Answer? && balance.Answer? && Allowance(profile, level, todayExp.value, balance.value) > 0 ==>
                exists d :: Turns(turns, Allowance(profile, level, todayExp.value, balance.value), d)
      ensures ending.Completed? <==> !ending.StoppedAfter? && (watchedOrShared || AcceptedOf(turns) != [])
    {
      hide AcceptedOf, Allowance, Turns, Sparing, Moderate;
      var donation := new DonationRun();
      var d;
      d, turns := donation.DonateCoins(profile, level, todayExp, balance);
      assert donation.coins == AcceptedOf(turns);
      IsModerate(donation.coins);
      given := given[key := donation.coins];
      if d.Aborted? {
        return DayFailed, StoppedAfter, turns;
      }
      if watchedOrShared || d.coins > 0 {
        rows := rows[key := Success];
        return DayDone(Success), Completed, turns;
      }
      rows := rows[key := Partial];
      return DayDone(Partial), Incomplete, turns;
    }
  }
}
