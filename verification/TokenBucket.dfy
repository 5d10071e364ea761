/** TokenBucketRateLimiter. Tokens are counted in exact credits: one token is `perToken` credits,
    and one nanosecond of elapsed time is one credit. */
module TokenBucket {
  import opened Division

  const MINUTE := 60_000_000_000

  /** `perToken()`, truncated to whole nanoseconds: zero beyond one request per nanosecond. */
  function PerToken(rpm: int): (p: int)
    requires rpm >= 1
    ensures p >= 0 && (p >= 1 <==> rpm <= MINUTE)
    ensures p * rpm <= 60_000_000_000 < (p + 1) * rpm
  {
    Quotient(MINUTE, rpm);
    MINUTE / rpm
  }

  /** The size of a full bucket and the price of a grant, in credits. */
  datatype Limit = Limit(full: int, price: int, perToken: int)
  {
    ghost predicate Valid() { 1 <= price <= full && perToken >= 0 && (perToken > 0 ==> price == perToken) }

    /** The credit after `elapsed`. Where a token takes no time at all the source divides by zero,
        and infinitely many tokens fill any bucket. */
    function Topped(credit: int, elapsed: int): int {
      if perToken == 0 || credit + elapsed > full then full else credit + elapsed
    }
  }

  /** A limiter of `rpm` requests per minute. */
  function PerMinute(rpm: int): (l: Limit)
    requires rpm >= 1
    ensures l.Valid()
  {
    var p := PerToken(rpm);
    var price := if p > 0 then p else 1;
    MulIsMonotone(1, rpm, price);
    Limit(rpm * price, price, p)
  }

  /** tokens * price, and the time of the last refill. */
  datatype Bucket = Bucket(credit: int, lastRef: int)

  /** Every reachable bucket: between empty and full. */
  ghost predicate Fits(l: Limit, b: Bucket)
    requires l.Valid()
  {
    0 <= b.credit <= l.full
  }

  /** `refillLocked` */
  function Refill(l: Limit, b: Bucket, now: int): Bucket
    requires l.Valid()
  {
    if now <= b.lastRef then b
    else Bucket(l.Topped(b.credit, now - b.lastRef), now)
  }

  /** One turn of the loop of `Wait`, at clock reading `now`. */
  function Poll(l: Limit, b: Bucket, now: int): (Bucket, bool)
    requires l.Valid()
  {
    var r := Refill(l, b, now);
    if r.credit >= l.price then (r.(credit := r.credit - l.price), true) else (r, false)
  }

  /** The bucket after polls at the given clock readings, by any number of waiters. */
  function After(l: Limit, b: Bucket, polls: seq<int>): Bucket
    requires l.Valid()
  {
    if polls == [] then b else Poll(l, After(l, b, polls[..|polls| - 1]), polls[|polls| - 1]).0
  }

  /** Whether poll number `i` of the run is granted. */
  predicate Granted(l: Limit, b: Bucket, polls: seq<int>, i: nat)
    requires l.Valid() && i < |polls|
  {
    Poll(l, After(l, b, polls[..i]), polls[i]).1
  }

  function Grants(l: Limit, b: Bucket, polls: seq<int>): nat
    requires l.Valid()
  {
    if polls == [] then 0
    else Grants(l, b, polls[..|polls| - 1]) + if Granted(l, b, polls, |polls| - 1) then 1 else 0
  }

  lemma PollKeepsFit(l: Limit, b: Bucket, now: int)
    requires l.Valid() && Fits(l, b)
    ensures Fits(l, Poll(l, b, now).0)
    ensures var r, granted := Poll(l, b, now).0, Poll(l, b, now).1;
            && b.lastRef <= r.lastRef
            && (l.perToken > 0 ==> r.credit <= b.credit + (r.lastRef - b.lastRef) - (if granted then l.price else 0))
            && (granted ==> r.credit <= l.full - l.price)
  {
  }

  /** The credits that the granted polls have spent. */
  function Spent(l: Limit, b: Bucket, polls: seq<int>): int
    requires l.Valid()
  {
    if polls == [] then 0
    else Spent(l, b, polls[..|polls| - 1]) + if Granted(l, b, polls, |polls| - 1) then l.price else 0
  }

  lemma {:induction false} SpentIsGrants(l: Limit, b: Bucket, polls: seq<int>)
    requires l.Valid()
    ensures Spent(l, b, polls) == Grants(l, b, polls) * l.price
  {
    if polls != [] {
      var g := Grants(l, b, polls[..|polls| - 1]);
      SpentIsGrants(l, b, polls[..|polls| - 1]);
      assert (g + 1) * l.price == g * l.price + l.price;
    }
  }

  /** 0 <= tokens <= rpm in every run, whatever the clock does; and credit comes from time only. */
  lemma {:induction false} RunKeepsFit(l: Limit, b: Bucket, polls: seq<int>)
    requires l.Valid() && Fits(l, b)
    ensures var r := After(l, b, polls);
            && Fits(l, r)
            && b.lastRef <= r.lastRef
            && (l.perToken > 0 ==> r.credit + Spent(l, b, polls) <= b.credit + (r.lastRef - b.lastRef))
  {
    if polls != [] {
      var front := polls[..|polls| - 1];
      RunKeepsFit(l, b, front);
      PollKeepsFit(l, After(l, b, front), polls[|polls| - 1]);
    }
  }

  lemma {:induction false} RunSplits(l: Limit, b: Bucket, u: seq<int>, v: seq<int>)
    requires l.Valid()
    ensures After(l, b, u + v) == After(l, After(l, b, u), v)
    ensures Spent(l, b, u + v) == Spent(l, b, u) + Spent(l, After(l, b, u), v)
  {
    if v == [] {
      assert u + v == u;
    } else {
      var front := v[..|v| - 1];
      RunSplits(l, b, u, front);
      assert (u + v)[..|u + v| - 1] == u + front;
    }
  }

  /** The grants from poll `i` up to poll `j`, and the bucket's times at the first and the last poll. */
  ghost function GrantsIn(l: Limit, b: Bucket, polls: seq<int>, i: nat, j: nat): int
    requires l.Valid() && i <= j <= |polls|
  {
    Grants(l, b, polls[..j]) - Grants(l, b, polls[..i])
  }

  ghost function TimeAt(l: Limit, b: Bucket, polls: seq<int>, i: nat): int
    requires l.Valid() && i < |polls|
  {
    After(l, b, polls[..i + 1]).lastRef
  }

  lemma WindowSpends(l: Limit, b: Bucket, polls: seq<int>, i: nat, j: nat)
    requires l.Valid() && l.perToken > 0 && Fits(l, b) && i <= j < |polls| && Granted(l, b, polls, i)
    ensures TimeAt(l, b, polls, i) <= TimeAt(l, b, polls, j)
    ensures Spent(l, b, polls[..j + 1]) - Spent(l, b, polls[..i]) <=
              l.full + (TimeAt(l, b, polls, j) - TimeAt(l, b, polls, i))
  {
    var head, rest := polls[..i + 1], polls[i + 1..j + 1];
    assert head[..i] == polls[..i] && polls[..j + 1] == head + rest;
    RunKeepsFit(l, b, polls[..i]);
    PollKeepsFit(l, After(l, b, polls[..i]), polls[i]);
    RunKeepsFit(l, After(l, b, head), rest);
    RunSplits(l, b, head, rest);
  }

  /** Over any run of any waiters, even if the clock steps back: the k grants from one granted poll to
      any later poll satisfy k * perToken <= rpm * perToken + (t - s), that is
      k <= rpm + (t - s) / perToken, where s and t are the bucket's times at those two polls. */
  lemma WindowBound(rpm: int, b: Bucket, polls: seq<int>, i: nat, j: nat)
    requires 1 <= rpm <= MINUTE && Fits(PerMinute(rpm), b) && i <= j < |polls| && Granted(PerMinute(rpm), b, polls, i)
    ensures var l := PerMinute(rpm);
            var k, span := GrantsIn(l, b, polls, i, j + 1), TimeAt(l, b, polls, j) - TimeAt(l, b, polls, i);
            0 <= span && k * l.perToken <= rpm * l.perToken + span && k <= rpm + span / l.perToken
  {
    var l := PerMinute(rpm);
    var p := l.perToken;
    WindowSpends(l, b, polls, i, j);
    SpentIsGrants(l, b, polls[..i]);
    SpentIsGrants(l, b, polls[..j + 1]);
    GrantsWithin(Grants(l, b, polls[..j + 1]), Grants(l, b, polls[..i]), rpm, p,
        TimeAt(l, b, polls, j) - TimeAt(l, b, polls, i));
  }

  lemma GrantsWithin(g: int, g0: int, rpm: int, p: int, span: int)
    requires p >= 1 && g * p - g0 * p <= rpm * p + span
    ensures (g - g0) * p <= rpm * p + span && g - g0 <= rpm + span / p
  {
    assert (g - g0) * p == g * p - g0 * p;
    assert (g - g0 - rpm) * p == g * p - g0 * p - rpm * p;
    DivBounds(span, g - g0 - rpm, p);
  }

  // ----- bursts -----

  /** `k` polls at one clock reading. */
  function Burst(now: int, k: nat): seq<int> {
    seq(k, _ => now)
  }

  lemma {:induction false} BurstDrains(l: Limit, b: Bucket, now: int, k: nat)
    requires l.Valid() && b.lastRef == now && k * l.price <= b.credit
    ensures After(l, b, Burst(now, k)) == Bucket(b.credit - k * l.price, now)
    ensures Grants(l, b, Burst(now, k)) == k
  {
    if k > 0 {
      assert (k - 1) * l.price + l.price == k * l.price;
      BurstDrains(l, b, now, k - 1);
      assert Burst(now, k)[..k - 1] == Burst(now, k - 1);
    }
  }

  lemma BurstEnds(l: Limit, b: Bucket, now: int, k: nat)
    requires l.Valid() && b.lastRef == now && k * l.price <= b.credit < (k + 1) * l.price
    ensures Grants(l, b, Burst(now, k + 1)) == k
  {
    BurstDrains(l, b, now, k);
    assert (k + 1) * l.price == k * l.price + l.price;
    assert Burst(now, k + 1)[..k] == Burst(now, k);
  }

  lemma {:induction false} FirstPollRefills(l: Limit, b: Bucket, now: int, k: nat)
    requires l.Valid() && b.lastRef <= now && k > 0
    ensures After(l, b, Burst(now, k)) == After(l, Refill(l, b, now), Burst(now, k))
    ensures Grants(l, b, Burst(now, k)) == Grants(l, Refill(l, b, now), Burst(now, k))
  {
    assert Burst(now, k)[..k - 1] == Burst(now, k - 1);
    if k > 1 {
      FirstPollRefills(l, b, now, k - 1);
    }
  }

  lemma IdleRefills(l: Limit, b: Bucket, now: int)
    requires l.Valid() && Fits(l, b) && now > b.lastRef && (l.perToken > 0 ==> now - b.lastRef >= l.full)
    ensures Refill(l, b, now) == Bucket(l.full, now)
  {
  }

  lemma FullBucketBursts(l: Limit, full: Bucket, now: int, k: nat)
    requires l.Valid() && full == Bucket(l.full, now) && l.full == k * l.price
    ensures Grants(l, full, Burst(now, k)) == k && Grants(l, full, Burst(now, k + 1)) == k
  {
    BurstDrains(l, full, now, k);
    assert (k + 1) * l.price == k * l.price + l.price;
    BurstEnds(l, full, now, k);
  }

  lemma IdleBucketBursts(l: Limit, b: Bucket, now: int, k: nat)
    requires l.Valid() && Fits(l, b) && now > b.lastRef && (l.perToken > 0 ==> now - b.lastRef >= l.full)
    requires k > 0 && l.full == k * l.price
    ensures Grants(l, b, Burst(now, k)) == k && Grants(l, b, Burst(now, k + 1)) == k
  {
    IdleRefills(l, b, now);
    FirstPollRefills(l, b, now, k);
    FirstPollRefills(l, b, now, k + 1);
    FullBucketBursts(l, Bucket(l.full, now), now, k);
  }

  /** A bucket that has been idle for long enough holds `rpm` tokens, no more and no fewer: so many polls at
      one clock reading are all granted, and the next one at that reading is refused. */
  lemma IdleBucketGrantsRpm(rpm: int, b: Bucket, now: int)
    requires rpm >= 1 && Fits(PerMinute(rpm), b) && now > b.lastRef && now - b.lastRef >= rpm * PerToken(rpm)
    ensures Grants(PerMinute(rpm), b, Burst(now, rpm)) == rpm
    ensures Grants(PerMinute(rpm), b, Burst(now, rpm + 1)) == rpm
  {
    IdleBucketBursts(PerMinute(rpm), b, now, rpm);
  }

  /** Refilling at one time and then at a later one is refilling once, at the later one. */
  lemma RefillTwice(l: Limit, b: Bucket, t1: int, t2: int)
    requires l.Valid() && t1 <= t2
    ensures Refill(l, Refill(l, b, t1), t2) == Refill(l, b, t2)
  {
  }

  // ----- refused polls -----

  /** The clock readings of the granted polls. */
  function GrantedPolls(l: Limit, b: Bucket, polls: seq<int>): seq<int>
    requires l.Valid()
  {
    if polls == [] then []
    else
      GrantedPolls(l, b, polls[..|polls| - 1]) +
      if Granted(l, b, polls, |polls| - 1) then [polls[|polls| - 1]] else []
  }

  /** `a` is `a'` seen by polls that were refused. */
  ghost predicate AheadOf(l: Limit, a: Bucket, a': Bucket)
    requires l.Valid()
  {
    a'.lastRef <= a.lastRef && a == Refill(l, a', a.lastRef) && (a == a' || a.credit < l.price)
  }

  lemma AheadStep(l: Limit, a: Bucket, a': Bucket, x: int)
    requires l.Valid() && AheadOf(l, a, a')
    ensures if Poll(l, a, x).1 then Poll(l, a', x) == Poll(l, a, x) else AheadOf(l, Poll(l, a, x).0, a')
  {
  }

  /** Refused polls leave no trace: the granted polls alone, at the same clock readings, are all
      granted and lead to the same bucket up to a refill. No order of the readings is assumed. */
  lemma {:induction false} RefusedPollsLeaveNoTrace(l: Limit, b: Bucket, polls: seq<int>)
    requires l.Valid() && Fits(l, b)
    ensures var kept := GrantedPolls(l, b, polls);
            && AheadOf(l, After(l, b, polls), After(l, b, kept))
            && Grants(l, b, kept) == |kept| == Grants(l, b, polls)
  {
    if polls != [] {
      var front, x := polls[..|polls| - 1], polls[|polls| - 1];
      var keptFront, kept := GrantedPolls(l, b, front), GrantedPolls(l, b, polls);
      RefusedPollsLeaveNoTrace(l, b, front);
      AheadStep(l, After(l, b, front), After(l, b, keptFront), x);
      if Granted(l, b, polls, |polls| - 1) {
        assert kept == keptFront + [x] && kept[..|kept| - 1] == keptFront;
      } else {
        assert kept == keptFront;
      }
    }
  }

  // ----- waiting -----

  /** How long `Wait` sleeps after a refused poll. */
  function Missing(l: Limit, b: Bucket): int
    requires l.Valid()
  {
    if l.perToken > 0 then l.perToken - b.credit else 0
  }

  /** After a refused poll the next one, with no other in between, is granted exactly when the clock
      has passed the bucket's time by the missing credits, at most one token's time. */
  lemma NextPollIsGrantedIff(l: Limit, b: Bucket, now: int, later: int)
    requires l.Valid() && Fits(l, b) && !Poll(l, b, now).1
    ensures var r := Poll(l, b, now).0;
            && 0 <= Missing(l, r) <= l.perToken
            && (l.perToken > 0 ==> 0 < Missing(l, r) && (Poll(l, r, later).1 <==> later >= r.lastRef + Missing(l, r)))
            && (l.perToken == 0 ==> (Poll(l, r, later).1 <==> later > r.lastRef))
  {
  }

  /** One turn of a waiter: the clock readings at which other waiters get the lock before it does,
      its own reading, and the answer of the sleep that follows a refusal. */
  datatype Turn = Turn(others: seq<int>, now: int, sleepOk: bool)

  /** The clock readings of some turns, in the order in which the lock is taken. */
  function Readings(turns: seq<Turn>): seq<int> {
    if turns == [] then [] else Readings(turns[..|turns| - 1]) + turns[|turns| - 1].others + [turns[|turns| - 1].now]
  }

  /** The numbers of the waiter's own readings among them, counted from `base`. */
  function OwnNumbers(turns: seq<Turn>, base: nat): seq<nat> {
    if turns == [] then []
    else OwnNumbers(turns[..|turns| - 1], base) +
           [base + |Readings(turns[..|turns| - 1])| + |turns[|turns| - 1].others|]
  }

  lemma ReadingsGrow(turns: seq<Turn>, n: nat, base: nat)
    requires n < |turns|
    ensures Readings(turns[..n + 1]) == Readings(turns[..n]) + turns[n].others + [turns[n].now]
    ensures OwnNumbers(turns[..n + 1], base) ==
              OwnNumbers(turns[..n], base) + [base + |Readings(turns[..n])| + |turns[n].others|]
  {
    assert turns[..n + 1][..n] == turns[..n];
  }

  lemma {:induction false} EarlierTurnsStand(turns: seq<Turn>, k: nat, base: nat)
    requires k <= |turns|
    ensures Readings(turns[..k]) <= Readings(turns) && OwnNumbers(turns[..k], base) <= OwnNumbers(turns, base)
  {
    if k == |turns| {
      assert turns[..k] == turns;
    } else {
      EarlierTurnsStand(turns[..|turns| - 1], k, base);
      assert turns[..|turns| - 1][..k] == turns[..k];
    }
  }

  /** Nothing but the two readings lies between the first two turns of a waiter that is alone, and one
      of them is granted. */
  lemma TwoPollsAlone(l: Limit, start: Bucket, before: seq<int>, turns: seq<Turn>)
    requires l.Valid() && Fits(l, start) && |turns| >= 2 && turns[0].others == turns[1].others == []
    requires After(l, start, before).lastRef <= turns[0].now
    requires var r := Poll(l, After(l, start, before), turns[0].now).0;
             turns[1].now >= turns[0].now + Missing(l, r) && (l.perToken == 0 ==> turns[1].now > turns[0].now)
    ensures OwnNumbers(turns[..2], |before|) == [|before|, |before| + 1]
    ensures var polls := before + Readings(turns[..2]);
            && |polls| == |before| + 2
            && (Granted(l, start, polls, |before|) || Granted(l, start, polls, |before| + 1))
            && Granted(l, start, polls, |before|) == Poll(l, After(l, start, before), turns[0].now).1
            && Missing(l, Poll(l, After(l, start, before), turns[0].now).0) <= l.perToken
  {
    assert turns[..0] == [];
    ReadingsGrow(turns, 0, |before|);
    ReadingsGrow(turns, 1, |before|);
    var first, second := turns[0].now, turns[1].now;
    var polls := before + Readings(turns[..2]);
    assert polls[..|before|] == before && polls[..|before| + 1] == before + [first];
    assert (before + [first])[..|before|] == before;
    RunKeepsFit(l, start, before);
    if !Granted(l, start, polls, |before|) {
      NextPollIsGrantedIff(l, After(l, start, before), first, second);
    }
  }

  /** The same two turns among the first `n`. */
  lemma TwoPollsSuffice(l: Limit, start: Bucket, before: seq<int>, turns: seq<Turn>, n: nat)
    requires l.Valid() && Fits(l, start) && 2 <= n <= |turns| && turns[0].others == turns[1].others == []
    requires After(l, start, before).lastRef <= turns[0].now
    requires var r := Poll(l, After(l, start, before), turns[0].now).0;
             turns[1].now >= turns[0].now + Missing(l, r) && (l.perToken == 0 ==> turns[1].now > turns[0].now)
    ensures var polls, mine := before + Readings(turns[..n]), OwnNumbers(turns[..n], |before|);
            && |mine| >= 2 && mine[0] < |polls| && mine[1] < |polls|
            && (Granted(l, start, polls, mine[0]) || Granted(l, start, polls, mine[1]))
            && Granted(l, start, polls, mine[0]) == Poll(l, After(l, start, before), turns[0].now).1
            && Missing(l, Poll(l, After(l, start, before), turns[0].now).0) <= l.perToken
  {
    TwoPollsAlone(l, start, before, turns);
    assert turns[..n][..2] == turns[..2];
    EarlierTurnsStand(turns[..n], 2, |before|);
    var polls, mine := before + Readings(turns[..n]), OwnNumbers(turns[..n], |before|);
    assert before + Readings(turns[..2]) <= polls;
    EarlierPollsStand(l, start, before + Readings(turns[..2]), polls);
    assert mine[..2] == [|before|, |before| + 1];
    assert mine[0] == mine[..2][0] && mine[1] == mine[..2][1];
  }

  /** Since `base` the run is the readings of these turns, and `mine` are the waiter's own among them. */
  ghost predicate Along(base: seq<int>, polls: seq<int>, mine: seq<nat>, turns: seq<Turn>) {
    |mine| == |turns| && polls == base + Readings(turns) && mine == OwnNumbers(turns, |base|)
  }

  lemma AlongGoesOn(base: seq<int>, polls: seq<int>, mine: seq<nat>, turns: seq<Turn>, n: nat, more: seq<int>)
    requires n < |turns| && Along(base, polls, mine, turns[..n]) && more == polls + turns[n].others + [turns[n].now]
    ensures Along(base, more, mine + [|more| - 1], turns[..n + 1]) && polls < more && |base| <= |polls|
  {
    ReadingsGrow(turns, n, |base|);
    var turn := turns[n].others + [turns[n].now];
    assert more == polls + turn && Readings(turns[..n + 1]) == Readings(turns[..n]) + turn;
    assert base + (Readings(turns[..n]) + turn) == base + Readings(turns[..n]) + turn;
  }

  /** These polls, all made from `base` on, were refused. */
  ghost predicate Refused(l: Limit, start: Bucket, polls: seq<int>, base: nat, mine: seq<nat>)
    requires l.Valid()
  {
    forall i :: 0 <= i < |mine| ==> base <= mine[i] < |polls| && !Granted(l, start, polls, mine[i])
  }

  lemma RefusedGoOn(l: Limit, start: Bucket, polls: seq<int>, more: seq<int>, base: nat, mine: seq<nat>)
    requires l.Valid() && polls < more && base <= |polls| && Refused(l, start, polls, base, mine)
    ensures Refused(l, start, more, base, mine)
    ensures !Granted(l, start, more, |more| - 1) ==> Refused(l, start, more, base, mine + [|more| - 1])
  {
    EarlierPollsStand(l, start, polls, more);
  }

  /** After each of these polls the waiter slept for the time that was missing then. */
  ghost predicate Napped(l: Limit, start: Bucket, polls: seq<int>, mine: seq<nat>, naps: seq<int>)
    requires l.Valid()
  {
    && |naps| <= |mine|
    && forall i :: 0 <= i < |naps| ==>
         mine[i] < |polls| && naps[i] == Missing(l, After(l, start, polls[..mine[i] + 1]))
  }

  lemma NapsStay(l: Limit, start: Bucket, polls: seq<int>, more: seq<int>, mine: seq<nat>, naps: seq<int>)
    requires l.Valid() && polls <= more && Napped(l, start, polls, mine, naps)
    ensures Napped(l, start, more, mine, naps)
  {
    forall i | 0 <= i < |naps| ensures naps[i] == Missing(l, After(l, start, more[..mine[i] + 1])) {
      assert more[..mine[i] + 1] == polls[..mine[i] + 1];
    }
  }

  lemma NapsGoOn(l: Limit, start: Bucket, more: seq<int>, mine: seq<nat>, naps: seq<int>)
    requires l.Valid() && more != [] && |naps| == |mine| && Napped(l, start, more, mine, naps)
    ensures Napped(l, start, more, mine + [|more| - 1], naps)
    ensures Napped(l, start, more, mine + [|more| - 1], naps + [Missing(l, After(l, start, more))])
  {
    assert more[..|more| - 1 + 1] == more;
  }

  /** A waiter that has made these turns without success: all of its polls were refused, and it slept
      after each. */
  ghost predicate Tried(l: Limit, start: Bucket, base: seq<int>, polls: seq<int>, mine: seq<nat>, naps: seq<int>,
                        turns: seq<Turn>)
    requires l.Valid()
  {
    && Along(base, polls, mine, turns) && Refused(l, start, polls, |base|, mine)
    && Napped(l, start, polls, mine, naps) && |naps| == |mine|
  }

  /** A waiter whose last poll, the last poll of all so far, was granted, and no other of its own. */
  ghost predicate Succeeded(l: Limit, start: Bucket, base: seq<int>, polls: seq<int>, mine: seq<nat>, naps: seq<int>,
                            turns: seq<Turn>)
    requires l.Valid()
  {
    && Along(base, polls, mine, turns) && polls != [] && Granted(l, start, polls, |polls| - 1)
    && mine != [] && mine[|mine| - 1] == |polls| - 1 && Refused(l, start, polls, |base|, mine[..|mine| - 1])
    && Napped(l, start, polls, mine, naps) && |naps| == |mine| - 1
  }

  lemma TriedGoesOn(l: Limit, start: Bucket, base: seq<int>, polls: seq<int>, mine: seq<nat>, naps: seq<int>,
                    turns: seq<Turn>, n: nat, more: seq<int>)
    requires l.Valid() && n < |turns| && Tried(l, start, base, polls, mine, naps, turns[..n])
    requires more == polls + turns[n].others + [turns[n].now]
    ensures var mine' := mine + [|more| - 1];
            if Granted(l, start, more, |more| - 1) then Succeeded(l, start, base, more, mine', naps, turns[..n + 1])
            else Tried(l, start, base, more, mine', naps + [Missing(l, After(l, start, more))], turns[..n + 1])
  {
    AlongGoesOn(base, polls, mine, turns, n, more);
    RefusedGoOn(l, start, polls, more, |base|, mine);
    NapsStay(l, start, polls, more, mine, naps);
    NapsGoOn(l, start, more, mine, naps);
    assert (mine + [|more| - 1])[..|mine|] == mine;
  }

  ghost predicate AllSlept(turns: seq<Turn>) {
    forall i :: 0 <= i < |turns| ==> turns[i].sleepOk
  }

  /** The one sleep of a waiter that is alone is for what its first poll was short of. */
  lemma AloneNap(l: Limit, start: Bucket, before: seq<int>, turns: seq<Turn>, polls: seq<int>, mine: seq<nat>,
                 naps: seq<int>)
    requires l.Valid() && |turns| >= 2 && turns[0].others == []
    requires Along(before, polls, mine, turns[..2]) && |naps| == 1 && Napped(l, start, polls, mine, naps)
    ensures naps == [Missing(l, Poll(l, After(l, start, before), turns[0].now).0)]
  {
    assert turns[..0] == [];
    ReadingsGrow(turns, 0, |before|);
    ReadingsGrow(turns, 1, |before|);
    assert mine[0] == |before| && polls[..|before| + 1] == before + [turns[0].now];
    assert (before + [turns[0].now])[..|before|] == before;
    assert naps[0] == Missing(l, After(l, start, polls[..mine[0] + 1]));
  }

  /** A waiter that is alone and whose turns but the last were refused has at most two. */
  lemma AloneHasTwo(l: Limit, start: Bucket, before: seq<int>, polls: seq<int>, mine: seq<nat>, turns: seq<Turn>)
    requires l.Valid() && Fits(l, start) && 2 <= |mine| <= |turns| && turns[0].others == turns[1].others == []
    requires After(l, start, before).lastRef <= turns[0].now
    requires var r := Poll(l, After(l, start, before), turns[0].now).0;
             turns[1].now >= turns[0].now + Missing(l, r) && (l.perToken == 0 ==> turns[1].now > turns[0].now)
    requires Along(before, polls, mine, turns[..|mine|]) && Refused(l, start, polls, |before|, mine[..|mine| - 1])
    ensures |mine| == 2 && mine[1] < |polls| && Granted(l, start, polls, mine[1])
    ensures !Poll(l, After(l, start, before), turns[0].now).1
    ensures Missing(l, Poll(l, After(l, start, before), turns[0].now).0) <= l.perToken
  {
    var early := mine[..|mine| - 1];
    assert forall i :: 0 <= i < |early| ==> mine[i] == early[i];
    TwoPollsSuffice(l, start, before, turns, |mine|);
  }

  /** What becomes of a waiter that is alone. */
  lemma AloneEnds(l: Limit, start: Bucket, before: seq<int>, polls: seq<int>, mine: seq<nat>, naps: seq<int>,
                  turns: seq<Turn>, ok: bool)
    requires l.Valid() && Fits(l, start) && |turns| >= 2 && turns[0].others == turns[1].others == []
    requires After(l, start, before).lastRef <= turns[0].now && turns[0].sleepOk
    requires var r := Poll(l, After(l, start, before), turns[0].now).0;
             turns[1].now >= turns[0].now + Missing(l, r) && (l.perToken == 0 ==> turns[1].now > turns[0].now)
    requires |mine| <= |turns|
    requires if ok then Succeeded(l, start, before, polls, mine, naps, turns[..|mine|])
             else Tried(l, start, before, polls, mine, naps, turns[..|mine|])
    requires !ok && |mine| < |turns| ==> mine != [] && !turns[|mine| - 1].sleepOk
    ensures ok && 1 <= |mine| <= 2
    ensures |mine| == 2 ==>
              && !Poll(l, After(l, start, before), turns[0].now).1
              && naps == [Missing(l, Poll(l, After(l, start, before), turns[0].now).0)] && naps[0] <= l.perToken
  {
    if |mine| >= 2 {
      AloneHasTwo(l, start, before, polls, mine, turns);
      if ok {
        AloneNap(l, start, before, turns, polls, mine, naps);
      }
    }
  }

  class RateLimiter {
    const rpm: int
    const limit: Limit
    var bucket: Bucket

    ghost const start: Bucket
    ghost var polls: seq<int>

    ghost predicate Valid()
      reads this
    {
      rpm > 0 ==> limit == PerMinute(rpm) && Fits(limit, start) && bucket == After(limit, start, polls)
    }

    /** A full bucket. A limiter with rpm <= 0 never limits. */
    constructor (rpm: int, now: int)
      ensures Valid() && this.rpm == rpm && polls == []
      ensures rpm > 0 ==> bucket == Bucket(PerMinute(rpm).full, now)
    {
      this.rpm := rpm;
      limit := if rpm > 0 then PerMinute(rpm) else Limit(0, 0, 0);
      var full := if rpm > 0 then PerMinute(rpm).full else 0;
      bucket := Bucket(full, now);
      start := Bucket(full, now);
      polls := [];
    }

    method RefillLocked(now: int)
      requires limit.Valid()
      modifies this`bucket
      ensures bucket == Refill(limit, old(bucket), now)
    {
      var elapsed := now - bucket.lastRef;
      if elapsed <= 0 {
        return;
      }
      var credit := bucket.credit + elapsed;
      if limit.perToken == 0 || credit > limit.full {
        credit := limit.full;
      }
      bucket := Bucket(credit, now);
    }

    /** One turn of the loop under the lock. */
    method TryTake(now: int) returns (granted: bool, missing: int)
      requires Valid() && rpm > 0
      modifies this
      ensures Valid() && polls == old(polls) + [now]
      ensures granted <==> Granted(limit, start, polls, |polls| - 1)
      ensures !granted ==> missing == Missing(limit, bucket)
    {
      RefillLocked(now);
      missing := 0;
      granted := bucket.credit >= limit.price;
      if granted {
        bucket := bucket.(credit := bucket.credit - limit.price);
      } else if limit.perToken > 0 {
        missing := limit.perToken - bucket.credit;
      }
      assert (polls + [now])[..|polls|] == polls;
      polls := polls + [now];
    }

    /** One turn of a waiter: the polls of others, then its own. */
    method TakeTurn(t: Turn) returns (granted: bool, missing: int)
      requires Valid() && rpm > 0
      modifies this
      ensures Valid() && polls == old(polls) + t.others + [t.now]
      ensures granted <==> Granted(limit, start, polls, |polls| - 1)
      ensures !granted ==> missing == Missing(limit, bucket)
    {
      for k := 0 to |t.others|
        invariant Valid() && polls == old(polls) + t.others[..k]
      {
        var _, _ := TryTake(t.others[k]);
      }
      granted, missing := TryTake(t.now);
    }

    /** Blocks until a token is taken or a sleep fails. `mine` are the numbers of this waiter's polls
        in the run of all waiters: the wait succeeds exactly when the last of them was granted,
        which is then the last poll of the run so far, and no other of them was. `naps` are the times
        that it slept: after each poll that was refused, for what was missing. */
    method Wait(turns: seq<Turn>) returns (ok: bool, ghost mine: seq<nat>, ghost naps: seq<int>)
      requires Valid()
      modifies this
      ensures Valid() && |mine| <= |turns|
      ensures rpm <= 0 ==> ok && mine == [] && polls == old(polls)
      ensures rpm > 0 && ok ==> Succeeded(limit, start, old(polls), polls, mine, naps, turns[..|mine|])
      ensures rpm > 0 && !ok ==> Tried(limit, start, old(polls), polls, mine, naps, turns[..|mine|])
      ensures mine != [] ==> AllSlept(turns[..|mine| - 1])
      ensures rpm > 0 && !ok && |mine| < |turns| ==> mine != [] && !turns[|mine| - 1].sleepOk
    {
      mine, naps := [], [];
      if rpm <= 0 {
        return true, [], [];
      }
      for n := 0 to |turns|
        invariant Valid() && |mine| == n && Tried(limit, start, old(polls), polls, mine, naps, turns[..n])
        invariant AllSlept(turns[..n])
      {
        ghost var before := polls;
        var granted, missing := TakeTurn(turns[n]);
        TriedGoesOn(limit, start, old(polls), before, mine, naps, turns, n, polls);
        mine := mine + [|polls| - 1];
        if granted {
          return true, mine, naps;
        }
        naps := naps + [missing];
        if !turns[n].sleepOk {
          return false, mine, naps;
        }
      }
      return false, mine, naps;
    }

    /** A waiter that is alone sleeps at most once, and for at most one token's time: it has its token
        after two polls at the latest, if the clock has not stepped back and the sleep lasts. */
    method WaitAlone(turns: seq<Turn>) returns (ok: bool, ghost mine: seq<nat>, ghost naps: seq<int>)
      requires Valid() && rpm > 0 && |turns| >= 2
      requires forall n :: 0 <= n < |turns| ==> turns[n].others == []
      requires bucket.lastRef <= turns[0].now && turns[0].sleepOk
      requires var r := Poll(limit, bucket, turns[0].now).0;
               turns[1].now >= turns[0].now + Missing(limit, r) && (limit.perToken == 0 ==> turns[1].now > turns[0].now)
      modifies this
      ensures Valid() && ok && 1 <= |mine| <= 2
      ensures |mine| == 2 ==>
                && !Poll(limit, old(bucket), turns[0].now).1
                && naps == [Missing(limit, Poll(limit, old(bucket), turns[0].now).0)] && naps[0] <= limit.perToken
    {
      ghost var before := polls;
      ok, mine, naps := Wait(turns);
      AloneEnds(limit, start, before, polls, mine, naps, turns, ok);
    }
  }

  /** Later polls do not change what earlier ones were told. */
  lemma EarlierPollsStand(l: Limit, b: Bucket, polls: seq<int>, more: seq<int>)
    requires l.Valid() && polls <= more
    ensures forall i :: 0 <= i < |polls| ==> Granted(l, b, more, i) == Granted(l, b, polls, i)
  {
    forall i | 0 <= i < |polls| ensures Granted(l, b, more, i) == Granted(l, b, polls, i) {
      assert more[..i] == polls[..i] && more[i] == polls[i];
    }
  }
}
