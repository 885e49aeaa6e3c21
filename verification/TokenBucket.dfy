/** The multi-key token bucket: pacing arithmetic, the retry hint, and the rate bound. Time is in seconds. */
module TokenBucket {
  import opened Text

  datatype Bucket = Bucket(key: string, capacity: real, refill: real, requested: real)

  datatype Cell = Cell(tokens: real, ts: real)

  datatype Verdict = Verdict(allowed: bool, retryAfter: real)

  function Max(a: real, b: real): real { if a < b then b else a }
  function Min(a: real, b: real): real { if b < a then b else a }

  predicate WellFormed(b: Bucket) {
    b.refill > 0.0 && 0.0 <= b.requested <= b.capacity
  }

  predicate DistinctKeys(bs: seq<Bucket>) {
    forall i, j | 0 <= i < j < |bs| :: bs[i].key != bs[j].key
  }

  /** Tokens at `now`; an absent key counts as a full bucket. */
  function Level(b: Bucket, cell: Option<Cell>, now: real): real {
    match cell
    case None => b.capacity
    case Some(c) => Min(b.capacity, c.tokens + Max(0.0, now - c.ts) * b.refill)
  }

  function Lookup(store: map<string, Cell>, key: string): Option<Cell> {
    if key in store then Some(store[key]) else None
  }

  function Levels(store: map<string, Cell>, bs: seq<Bucket>, now: real): (ls: seq<real>)
    ensures |ls| == |bs| && forall i | 0 <= i < |bs| :: ls[i] == Level(bs[i], Lookup(store, bs[i].key), now)
  {
    seq(|bs|, i requires 0 <= i < |bs| => Level(bs[i], Lookup(store, bs[i].key), now))
  }

  predicate Allows(bs: seq<Bucket>, ls: seq<real>)
    requires |ls| == |bs|
  {
    forall i | 0 <= i < |bs| :: ls[i] >= bs[i].requested
  }

  /** The longest of the waits of the buckets that are short. */
  function Wait(bs: seq<Bucket>, ls: seq<real>): real
    requires |ls| == |bs| && forall i | 0 <= i < |bs| :: bs[i].refill > 0.0
  {
    if bs == [] then 0.0
    else
      var n := |bs| - 1;
      var before := Wait(bs[..n], ls[..n]);
      if ls[n] < bs[n].requested then Max(before, (bs[n].requested - ls[n]) / bs[n].refill) else before
  }

  function Judge(bs: seq<Bucket>, ls: seq<real>): Verdict
    requires |ls| == |bs| && forall i | 0 <= i < |bs| :: bs[i].refill > 0.0
  {
    Verdict(Allows(bs, ls), Wait(bs, ls))
  }

  /** What the transaction writes: every bucket pays, or every bucket is only brought up to date. */
  function Written(store: map<string, Cell>, bs: seq<Bucket>, ls: seq<real>, allowed: bool, now: real)
    : map<string, Cell>
    requires |ls| == |bs|
  {
    if bs == [] then store
    else
      var n := |bs| - 1;
      Written(store, bs[..n], ls[..n], allowed, now)
        [bs[n].key := Cell(if allowed then ls[n] - bs[n].requested else ls[n], now)]
  }

  /** The atomic all-or-nothing take that `acquire` is meant to be. */
  function Take(store: map<string, Cell>, bs: seq<Bucket>, now: real): (map<string, Cell>, Verdict)
    requires forall i | 0 <= i < |bs| :: bs[i].refill > 0.0
  {
    var ls := Levels(store, bs, now);
    (Written(store, bs, ls, Allows(bs, ls), now), Judge(bs, ls))
  }

  lemma {:induction false} WrittenAt(store: map<string, Cell>, bs: seq<Bucket>, ls: seq<real>, allowed: bool,
                                     now: real, i: nat)
    requires |ls| == |bs| && DistinctKeys(bs) && i < |bs|
    ensures var w := Written(store, bs, ls, allowed, now);
            bs[i].key in w && w[bs[i].key] == Cell(if allowed then ls[i] - bs[i].requested else ls[i], now)
  {
    var n := |bs| - 1;
    if i < n { WrittenAt(store, bs[..n], ls[..n], allowed, now, i); }
  }

  lemma {:induction false} WrittenElsewhere(store: map<string, Cell>, bs: seq<Bucket>, ls: seq<real>, allowed: bool,
                                            now: real, key: string)
    requires |ls| == |bs| && forall i | 0 <= i < |bs| :: bs[i].key != key
    ensures Lookup(Written(store, bs, ls, allowed, now), key) == Lookup(store, key)
  {
    if bs != [] { WrittenElsewhere(store, bs[..|bs| - 1], ls[..|bs| - 1], allowed, now, key); }
  }

  lemma {:induction false} WaitIsLongest(bs: seq<Bucket>, ls: seq<real>)
    requires |ls| == |bs| && forall i | 0 <= i < |bs| :: bs[i].refill > 0.0
    ensures Wait(bs, ls) >= 0.0
    ensures forall i | 0 <= i < |bs| && ls[i] < bs[i].requested ::
              Wait(bs, ls) >= (bs[i].requested - ls[i]) / bs[i].refill
    ensures Wait(bs, ls) == 0.0 || exists i | 0 <= i < |bs| ::
              ls[i] < bs[i].requested && Wait(bs, ls) == (bs[i].requested - ls[i]) / bs[i].refill
  {
    if bs != [] {
      var n := |bs| - 1;
      WaitIsLongest(bs[..n], ls[..n]);
      forall i | 0 <= i < |bs| && ls[i] < bs[i].requested
        ensures Wait(bs, ls) >= (bs[i].requested - ls[i]) / bs[i].refill
      {
        if i < n { assert bs[..n][i] == bs[i] && ls[..n][i] == ls[i]; }
      }
      if Wait(bs, ls) == Wait(bs[..n], ls[..n]) != 0.0 {
        var i :| 0 <= i < n && ls[..n][i] < bs[..n][i].requested
                 && Wait(bs[..n], ls[..n]) == (bs[..n][i].requested - ls[..n][i]) / bs[..n][i].refill;
        assert bs[..n][i] == bs[i] && ls[..n][i] == ls[i];
      } else if Wait(bs, ls) != 0.0 {
        assert ls[n] < bs[n].requested && Wait(bs, ls) == (bs[n].requested - ls[n]) / bs[n].refill;
      }
    }
  }

  lemma OneMoreBucket(bs: seq<Bucket>, ls: seq<real>, b: Bucket, level: real)
    requires |ls| == |bs| && b.refill > 0.0 && forall i | 0 <= i < |bs| :: bs[i].refill > 0.0
    ensures Allows(bs + [b], ls + [level]) <==> Allows(bs, ls) && level >= b.requested
    ensures Wait(bs + [b], ls + [level]) ==
            if level < b.requested then Max(Wait(bs, ls), (b.requested - level) / b.refill) else Wait(bs, ls)
  {
    assert (bs + [b])[..|bs|] == bs && (ls + [level])[..|bs|] == ls;
    if Allows(bs + [b], ls + [level]) {
      forall i | 0 <= i < |bs| ensures ls[i] >= bs[i].requested {
        assert (bs + [b])[i] == bs[i] && (ls + [level])[i] == ls[i];
      }
      assert (bs + [b])[|bs|] == b && (ls + [level])[|bs|] == level;
    }
  }

  // ----- acquire -----

  /** What one pass of the retry loop finds: the live keys, the clock, and whether EXEC is refused. */
  datatype Found = Found(store: map<string, Cell>, now: real, conflict: bool)

  class RateLimiter {
    var store: map<string, Cell>

    /** One key as one pass reads it. */
    method Refilled(b: Bucket, raw: Option<Cell>, now: real) returns (tokens: real)
      ensures tokens == Level(b, raw, now)
    {
      tokens := if raw.Some? then raw.value.tokens else b.capacity;
      var ts := if raw.Some? then raw.value.ts else now;
      tokens := Min(b.capacity, tokens + Max(0.0, now - ts) * b.refill);
    }

    /** The reading loop of one pass. */
    method Measure(bs: seq<Bucket>, now: real) returns (levels: seq<real>, v: Verdict)
      requires forall i | 0 <= i < |bs| :: bs[i].refill > 0.0
      ensures levels == Levels(store, bs, now) && v == Judge(bs, levels)
    {
      levels := [];
      var allowed, retryAfter := true, 0.0;
      for i := 0 to |bs|
        invariant |levels| == i && forall j | 0 <= j < i :: levels[j] == Level(bs[j], Lookup(store, bs[j].key), now)
        invariant allowed == Allows(bs[..i], levels) && retryAfter == Wait(bs[..i], levels)
      {
        var b := bs[i];
        var tokens := Refilled(b, Lookup(store, b.key), now);
        levels := levels + [tokens];
        if tokens < b.requested {
          allowed := false;
          retryAfter := Max(retryAfter, (b.requested - tokens) / b.refill);
        }
        assert bs[..i + 1] == bs[..i] + [b];
        OneMoreBucket(bs[..i], levels[..i], b, tokens);
        assert levels == levels[..i] + [tokens];
      }
      assert bs[..|bs|] == bs;
      v := Verdict(allowed, retryAfter);
    }

    method Commit(bs: seq<Bucket>, levels: seq<real>, allowed: bool, now: real)
      requires |levels| == |bs|
      modifies this
      ensures store == Written(old(store), bs, levels, allowed, now)
    {
      for i := 0 to |bs|
        invariant store == Written(old(store), bs[..i], levels[..i], allowed, now)
      {
        store := store[bs[i].key := Cell(if allowed then levels[i] - bs[i].requested else levels[i], now)];
        assert bs[..i + 1][..i] == bs[..i] && levels[..i + 1][..i] == levels[..i];
      }
      assert bs[..|bs|] == bs && levels[..|bs|] == levels;
    }

    /**
     The optimistic loop. `finds[i]` is the world pass `i` meets; `pass` is the one that committed. A refused pass
     writes nothing; the first accepted pass is one atomic take of what it found; when all are refused the caller is
     told to come back in a second.
     */
    method Acquire(bs: seq<Bucket>, finds: seq<Found>) returns (v: Verdict, pass: nat)
      requires forall i | 0 <= i < |bs| :: bs[i].refill > 0.0
      modifies this
      ensures bs == [] ==> v == Verdict(true, 0.0) && store == old(store)
      ensures bs != [] ==> pass <= |finds| && forall i | 0 <= i < pass :: finds[i].conflict
      ensures bs != [] && pass < |finds| ==>
                !finds[pass].conflict && (store, v) == Take(finds[pass].store, bs, finds[pass].now)
      ensures bs != [] && pass == |finds| ==>
                v == Verdict(false, 1.0) && store == if finds == [] then old(store) else finds[|finds| - 1].store
    {
      pass := 0;
      if bs == [] { return Verdict(true, 0.0), 0; }
      while pass < |finds|
        invariant pass <= |finds| && forall i | 0 <= i < pass :: finds[i].conflict
        invariant store == if pass == 0 then old(store) else finds[pass - 1].store
      {
        store := finds[pass].store;
        var levels, judged := Measure(bs, finds[pass].now);
        if !finds[pass].conflict {
          Commit(bs, levels, judged.allowed, finds[pass].now);
          return judged, pass;
        }
        pass := pass + 1;
      }
      v := Verdict(false, 1.0);
    }
  }

  // ----- Refill composes; denials are free -----

  lemma RefillComposes(b: Bucket, cell: Option<Cell>, t: real, d: real)
    requires b.refill > 0.0 && d >= 0.0 && (cell.Some? ==> cell.value.ts <= t)
    ensures Level(b, Some(Cell(Level(b, cell, t), t)), t + d) == Level(b, cell, t + d)
  {
    var gain := d * b.refill;
    assert gain >= 0.0;
    assert Max(0.0, t + d - t) == d;
    if cell.Some? {
      var c := cell.value;
      assert (t + d - c.ts) * b.refill == (t - c.ts) * b.refill + gain;
    }
  }

  /** A refused take changes no later level of any bucket. */
  lemma DenialCostsNothing(store: map<string, Cell>, bs: seq<Bucket>, now: real, b: Bucket, d: real)
    requires DistinctKeys(bs) && (forall i | 0 <= i < |bs| :: bs[i].refill > 0.0) && b.refill > 0.0
    requires !Take(store, bs, now).1.allowed && d >= 0.0
    requires b in bs || forall i | 0 <= i < |bs| :: bs[i].key != b.key
    requires b.key in store ==> store[b.key].ts <= now
    ensures Level(b, Lookup(Take(store, bs, now).0, b.key), now + d) == Level(b, Lookup(store, b.key), now + d)
  {
    var ls := Levels(store, bs, now);
    if b in bs {
      var i :| 0 <= i < |bs| && bs[i] == b;
      WrittenAt(store, bs, ls, false, now, i);
      RefillComposes(b, Lookup(store, b.key), now, d);
    } else {
      WrittenElsewhere(store, bs, ls, false, now, b.key);
    }
  }

  lemma ShortBy(level: real, requested: real, refill: real, d: real)
    requires refill > 0.0
    ensures level + d * refill >= requested <==> d >= (requested - level) / refill
  {
    var w := (requested - level) / refill;
    assert w * refill == requested - level;
    if d >= w { assert d * refill >= w * refill; } else { assert d * refill < w * refill; }
  }

  lemma OneBucketLater(b: Bucket, level: real, now: real, d: real)
    requires WellFormed(b) && d >= 0.0
    ensures Level(b, Some(Cell(level, now)), now + d) >= b.requested <==> level + d * b.refill >= b.requested
    ensures level + d * b.refill >= b.requested <==> d >= (b.requested - level) / b.refill
    ensures d * b.refill >= 0.0
  {
    ShortBy(level, b.requested, b.refill, d);
    assert Max(0.0, now + d - now) == d;
    assert d * b.refill >= 0.0;
  }

  /** The hint is exact: after a denial, with nobody else taking, a retry after `d` succeeds iff `d >= retry_after`. */
  lemma RetryAfterExact(store: map<string, Cell>, bs: seq<Bucket>, now: real, d: real)
    requires DistinctKeys(bs) && d >= 0.0
    requires forall i | 0 <= i < |bs| :: bs[i].refill > 0.0 && WellFormed(bs[i])
    requires !Allows(bs, Levels(store, bs, now))
    ensures Take(Take(store, bs, now).0, bs, now + d).1.allowed <==> d >= Take(store, bs, now).1.retryAfter
  {
    var ls := Levels(store, bs, now);
    var later := Levels(Written(store, bs, ls, false, now), bs, now + d);
    var wait := Wait(bs, ls);
    WaitIsLongest(bs, ls);
    forall i | 0 <= i < |bs|
      ensures later[i] >= bs[i].requested <==> ls[i] >= bs[i].requested || d >= (bs[i].requested - ls[i]) / bs[i].refill
    {
      WrittenAt(store, bs, ls, false, now, i);
      OneBucketLater(bs[i], ls[i], now, d);
    }
    assert Allows(bs, later) <==> d >= wait;
  }

  // ----- The send buckets -----

  function PerMinuteBucket(key: string, perMinute: int): Bucket {
    var n := if perMinute < 1 then 1 else perMinute;
    Bucket(key, n as real, n as real / 60.0, 1.0)
  }

  /** An override of zero counts as absent. */
  function SendBuckets(domain: string, override: Option<int>, globalRate: int, domainRate: int): seq<Bucket> {
    [PerMinuteBucket("rl:global", if override.Some? && override.value != 0 then override.value else globalRate),
     PerMinuteBucket("rl:dom:" + domain, domainRate)]
  }

  function Ceil(x: real): int { -((-x).Floor) }

  /** The delay after which a rate-limited send is queued again. */
  function Countdown(retryAfter: real): int {
    var c := Ceil(retryAfter);
    var atLeastOne := if c < 1 then 1 else c;
    if atLeastOne > 60 then 60 else atLeastOne
  }

  /** So many whole seconds, at least one, last for the wait. */
  predicate Covers(n: int, wait: real) {
    n >= 1 && n as real >= wait
  }

  lemma SendBucketsFit(domain: string, override: Option<int>, globalRate: int, domainRate: int)
    ensures var bs := SendBuckets(domain, override, globalRate, domainRate);
            && DistinctKeys(bs)
            && forall i | 0 <= i < |bs| ::
                 WellFormed(bs[i]) && bs[i].requested == 1.0 && bs[i].refill * 60.0 == bs[i].capacity
  {
    assert "rl:global"[3] != ("rl:dom:" + domain)[3];
  }

  /**
   A per-minute bucket is never more than a minute short of one token, so the countdown is the shortest that covers
   the wait.
   */
  lemma CountdownSuffices(store: map<string, Cell>, domain: string, override: Option<int>, globalRate: int,
                          domainRate: int, now: real)
    requires forall k | k in store :: store[k].tokens >= 0.0
    ensures var bs := SendBuckets(domain, override, globalRate, domainRate);
            (forall i | 0 <= i < |bs| :: bs[i].refill > 0.0) &&
            var v := Take(store, bs, now).1;
            && 0.0 <= v.retryAfter <= 60.0
            && Covers(Countdown(v.retryAfter), v.retryAfter) && Countdown(v.retryAfter) <= 60
            && forall n | Covers(n, v.retryAfter) :: Countdown(v.retryAfter) <= n
  {
    SendBucketsFit(domain, override, globalRate, domainRate);
    var bs := SendBuckets(domain, override, globalRate, domainRate);
    var ls := Levels(store, bs, now);
    WaitIsLongest(bs, ls);
    forall i | 0 <= i < |bs| && ls[i] < bs[i].requested ensures (bs[i].requested - ls[i]) / bs[i].refill <= 60.0 {
      LevelNonNegative(bs[i], Lookup(store, bs[i].key), now);
      AtMostAMinute(bs[i], ls[i]);
    }
  }

  lemma AtMostAMinute(b: Bucket, level: real)
    requires b.refill > 0.0 && b.refill * 60.0 == b.capacity && b.requested <= b.capacity && level >= 0.0
    ensures (b.requested - level) / b.refill <= 60.0
  {
    ShortBy(level, b.requested, b.refill, 60.0);
  }

  lemma LevelNonNegative(b: Bucket, cell: Option<Cell>, now: real)
    requires b.refill > 0.0 && b.capacity >= 0.0 && (cell.Some? ==> cell.value.tokens >= 0.0)
    ensures 0.0 <= Level(b, cell, now) <= b.capacity
  {
    if cell.Some? { assert Max(0.0, now - cell.value.ts) * b.refill >= 0.0; }
  }

  // ----- The rate bound -----

  /** One committed run on a bucket: when, and whether it took its token. */
  datatype Visit = Visit(at: real, took: bool)

  /** The bucket after its committed runs, had its key never expired. */
  function After(b: Bucket, visits: seq<Visit>): Option<Cell> {
    if visits == [] then None
    else
      var v := visits[|visits| - 1];
      var level := Level(b, After(b, visits[..|visits| - 1]), v.at);
      Some(Cell(if v.took then level - b.requested else level, v.at))
  }

  /** Clocks do not run backwards, and a token is only taken where there is one. */
  ghost predicate Lawful(b: Bucket, visits: seq<Visit>) {
    visits == [] ||
    var before, v := visits[..|visits| - 1], visits[|visits| - 1];
    && Lawful(b, before)
    && (before != [] ==> before[|before| - 1].at <= v.at)
    && (v.took ==> Level(b, After(b, before), v.at) >= b.requested)
  }

  function Admitted(visits: seq<Visit>, t1: real, t2: real): nat {
    if visits == [] then 0
    else
      var v := visits[|visits| - 1];
      Admitted(visits[..|visits| - 1], t1, t2) + if v.took && t1 <= v.at <= t2 then 1 else 0
  }

  /** Tokens stay between empty and full. */
  lemma {:induction false} TokensInRange(b: Bucket, visits: seq<Visit>)
    requires WellFormed(b) && Lawful(b, visits)
    ensures After(b, visits).Some? ==> 0.0 <= After(b, visits).value.tokens <= b.capacity
  {
    if visits != [] {
      var before := visits[..|visits| - 1];
      TokensInRange(b, before);
      LevelNonNegative(b, After(b, before), visits[|visits| - 1].at);
    }
  }

  lemma {:induction false} NoneBefore(b: Bucket, visits: seq<Visit>, t1: real, t2: real)
    requires Lawful(b, visits) && visits != [] && visits[|visits| - 1].at < t1
    ensures Admitted(visits, t1, t2) == 0
  {
    var before := visits[..|visits| - 1];
    if before != [] { NoneBefore(b, before, t1, t2); }
  }

  /** A full bucket and what it refills in a window of length `d`. */
  function Allowance(b: Bucket, d: real): real {
    b.capacity + b.refill * d
  }

  /** What was admitted since `t1` plus what is left never exceeds a full bucket plus the refill since `t1`. */
  lemma {:induction false} Spent(b: Bucket, visits: seq<Visit>, t1: real, t2: real)
    requires WellFormed(b) && b.requested == 1.0 && Lawful(b, visits) && visits != []
    requires t1 <= visits[|visits| - 1].at <= t2
    ensures Admitted(visits, t1, t2) as real + After(b, visits).value.tokens <= Allowance(b,
                                                                                          visits[|visits| - 1].at - t1)
  {
    var n := |visits| - 1;
    var before, v := visits[..n], visits[n];
    var spent := Admitted(before, t1, t2) as real;
    if before != [] && before[n - 1].at >= t1 {
      Spent(b, before, t1, t2);
      SpentMore(b, After(b, before).value, spent, t1, v.at);
    } else {
      if before != [] { NoneBefore(b, before, t1, t2); }
      SpentFirst(b, After(b, before), t1, v.at);
    }
    assert spent + Level(b, After(b, before), v.at) <= Allowance(b, v.at - t1);
    assert Admitted(visits, t1, t2) as real == spent + if v.took then 1.0 else 0.0;
  }

  lemma SpentFirst(b: Bucket, cell: Option<Cell>, t1: real, at: real)
    requires b.refill > 0.0 && t1 <= at
    ensures Level(b, cell, at) <= Allowance(b, at - t1)
  {
    ScaleLe(b.refill, 0.0, at - t1);
  }

  lemma SpentMore(b: Bucket, c: Cell, spent: real, t1: real, at: real)
    requires b.refill > 0.0 && c.ts <= at
    requires spent + c.tokens <= Allowance(b, c.ts - t1)
    ensures spent + Level(b, Some(c), at) <= Allowance(b, at - t1)
  {
    assert Max(0.0, at - c.ts) == at - c.ts;
    assert b.refill * (at - t1) == b.refill * (c.ts - t1) + (at - c.ts) * b.refill;
  }

  lemma ScaleLe(r: real, x: real, y: real)
    requires r >= 0.0 && x <= y
    ensures r * x <= r * y
  {
  }

  lemma AllowanceGrows(b: Bucket, d: real, e: real)
    requires b.refill > 0.0 && d <= e
    ensures Allowance(b, d) <= Allowance(b, e)
  {
    ScaleLe(b.refill, d, e);
  }

  lemma AllowanceNonNegative(b: Bucket, d: real)
    requires WellFormed(b) && d >= 0.0
    ensures Allowance(b, d) >= 0.0
  {
    ScaleLe(b.refill, 0.0, d);
  }

  lemma WindowBound(b: Bucket, spent: real, left: real, t1: real, at: real, t2: real)
    requires b.refill > 0.0 && at <= t2 && left >= 0.0
    requires spent + left <= Allowance(b, at - t1)
    ensures spent <= Allowance(b, t2 - t1)
  {
    AllowanceGrows(b, at - t1, t2 - t1);
  }

  /** The rate bound: in any window the admitted sends number at most the capacity plus the refill of the window. */
  lemma {:induction false} RateBound(b: Bucket, visits: seq<Visit>, t1: real, t2: real)
    requires WellFormed(b) && b.requested == 1.0 && Lawful(b, visits) && t1 <= t2
    ensures Admitted(visits, t1, t2) as real <= Allowance(b, t2 - t1)
  {
    AllowanceNonNegative(b, t2 - t1);
    if visits != [] {
      var n := |visits| - 1;
      if visits[n].at > t2 {
        RateBound(b, visits[..n], t1, t2);
      } else if visits[n].at < t1 {
        NoneBefore(b, visits, t1, t2);
      } else {
        Spent(b, visits, t1, t2);
        TokensInRange(b, visits);
        WindowBound(b, Admitted(visits, t1, t2) as real, After(b, visits).value.tokens, t1, visits[n].at, t2);
      }
    }
  }
}
