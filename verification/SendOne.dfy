/**
 `send_one` as it runs from its lock to its `finally`, on the tables and the Redis keys. Every statement that others
 can see is one step of the protocol, so that what is proved of all runs of the protocol holds for it.
 */
module SendOne {
  import opened Text
  import opened RecipientLedger
  import opened Protocol
  import opened Database
  import TokenBucket

  datatype Outcome =
    | Locked
    | Stopped(why: Decision)
    | RateLimited(countdown: int)
    | DailyCap(countdown: int)
    | WarmingDeferred(countdown: int)
    | CapReached
    | Retried
    | RejectedByPostal(detail: string)
    | WentOut(token: string)

  /** What the task meets outside the tables: the settings, the rate limiter, Postal, and how long Postal takes. */
  datatype Surroundings = Surroundings(cap: int, defers: bool, rate: TokenBucket.Verdict, reply: Reply, elapsed: nat)

  /** The rate limiter and both caps let the job go on. */
  ghost predicate Passes(p: Policy, s: Sys, job: Job, e: Surroundings) {
    e.rate.allowed && UnderCaps(p, s, job, e.cap)
  }

  ghost predicate UnderCaps(p: Policy, s: Sys, job: Job, cap: int) {
    PoolUsed(s, job.pool, DayOf(s.now)) < p.poolCap && TotalUsed(s, DayOf(s.now)) < cap
  }

  /** The one way to a send, the lock aside. */
  ghost predicate GoesOn(p: Policy, s: Sys, r: int, e: Surroundings) {
    && Validate(s.ledger, r, e.cap, e.defers).Proceed?
    && Passes(p, s, Validate(s.ledger, r, e.cap, e.defers).job, e)
    && e.reply.Accept?
  }

  // ----- What becomes of a task -----

  const SECOND: int := 1_000_000

  /** Whole seconds to midnight UTC, at least a minute. */
  function SecondsToMidnight(now: int): (n: int)
    ensures n >= 60
  {
    var left := ((DayOf(now) + 1) * DAY - now) / SECOND;
    if left < 60 then 60 else left
  }

  /** A task that meets the daily cap is queued again at midnight, or in an hour if that is sooner. */
  function CapCountdown(now: int): (n: int)
    ensures 60 <= n <= 3600
    ensures var left := (DayOf(now) + 1) * DAY - now;
            if left < 61 * SECOND then n == 60
            else if left >= 3600 * SECOND then n == 3600
            else n * SECOND <= left < (n + 1) * SECOND
  {
    if SecondsToMidnight(now) > 3600 then 3600 else SecondsToMidnight(now)
  }

  function AtPostal(reply: Reply): Outcome {
    match reply
    case Transient => Retried
    case Permanent(detail) => RejectedByPostal(detail)
    case Accept(token) => WentOut(token)
  }

  function AtWarmingCap(s: Sys, e: Surroundings): Outcome {
    if TotalUsed(s, DayOf(s.now)) < e.cap then AtPostal(e.reply)
    else if e.defers then WarmingDeferred(3600)
    else CapReached
  }

  function AtCaps(p: Policy, s: Sys, job: Job, e: Surroundings): Outcome {
    if PoolUsed(s, job.pool, DayOf(s.now)) < p.poolCap then AtWarmingCap(s, e) else DailyCap(CapCountdown(s.now))
  }

  function AtLimits(p: Policy, s: Sys, job: Job, e: Surroundings): Outcome {
    if e.rate.allowed then AtCaps(p, s, job, e) else RateLimited(TokenBucket.Countdown(e.rate.retryAfter))
  }

  function OutcomeOf(p: Policy, s: Sys, r: int, e: Surroundings): Outcome {
    if Held(s, r) then Locked
    else
      var d := Validate(s.ledger, r, e.cap, e.defers);
      if d.Proceed? then AtLimits(p, s, d.job, e) else Stopped(d)
  }

  /** The ledger that goes with an outcome. */
  function LedgerWith(l: Ledger, r: int, o: Outcome, pool: string): Ledger {
    match o
    case Stopped(why) => if r in l.rows then AfterPhase1(l, r, why) else l
    case CapReached => SkipForCap(l, r)
    case RejectedByPostal(detail) => FailPermanently(l, r, detail)
    case WentOut(token) => CommitSend(l, r, pool, token)
    case _ => l
  }

  /** The row waits for another task: one queued with a countdown, a resume, or the sweep. */
  predicate LeavesPending(o: Outcome) {
    || o.Locked? || o.RateLimited? || o.DailyCap? || o.WarmingDeferred? || o.Retried?
    || (o.Stopped? && (o.why.NoCampaign? || o.why.PausedCampaign? || o.why.NotSending?))
  }

  /** A row stays pending in exactly these outcomes; in the others it is settled. */
  lemma PendingAfterTask(p: Policy, s: Sys, r: int, e: Surroundings)
    requires Sound(s.ledger)
    ensures var o := OutcomeOf(p, s, r, e);
            StillPending(LedgerWith(s.ledger, r, o, PoolOf(s, r, e)), r) <==>
              StillPending(s.ledger, r) && LeavesPending(o)
  {
  }

  /** The row's pool, its campaign's, or the default one. */
  predicate RowPool(l: Ledger, r: int, pool: string) {
    && r in l.rows && l.rows[r].campaign in l.campaigns
    && PoolFor(l.rows[r].pool, l.campaigns[l.rows[r].campaign].pool, pool)
  }

  /** Phase 1 and the rate limiter have nothing against the send. */
  predicate ReachesCaps(s: Sys, r: int, e: Surroundings) {
    !Held(s, r) && Sendable(s.ledger, r) && e.rate.allowed
  }

  /** That pool's cap holds the row back, and that pool is stored with it when it goes out. */
  lemma TaskUsesPool(p: Policy, s: Sys, r: int, e: Surroundings, pool: string)
    requires RowPool(s.ledger, r, pool)
    ensures var o := OutcomeOf(p, s, r, e);
            && (o.DailyCap? <==> ReachesCaps(s, r, e) && PoolUsed(s, pool, DayOf(s.now)) >= p.poolCap)
            && (o.WentOut? ==> PoolOf(s, r, e) == pool)
  {
    ProceedsWhen(s.ledger, r, e.cap, e.defers);
  }

  /** The rate limiter, the pool and the warming cap let the row through to Postal. */
  predicate ReachesPostal(p: Policy, s: Sys, r: int, e: Surroundings, pool: string) {
    ReachesCaps(s, r, e) && PoolUsed(s, pool, DayOf(s.now)) < p.poolCap && TotalUsed(s, DayOf(s.now)) < e.cap
  }

  /** The row a task leaves behind. */
  function RowLeft(p: Policy, s: Sys, r: int, e: Surroundings, pool: string): Row
    requires r in s.ledger.rows && s.ledger.rows[r].campaign in s.ledger.campaigns
  {
    var row := s.ledger.rows[r];
    var k := s.ledger.campaigns[row.campaign];
    if Held(s, r) || row.status != Pending || k.status != Sending then row
    else if IsSuppressed(s.ledger.suppressions, row.email) then row.(status := SkippedSuppressed)
    else if k.template.None? then row.(status := Failed, error := Some("campaign has no template"))
    else if !ReachesPostal(p, s, r, e, pool) then
      if ReachesCaps(s, r, e) && PoolUsed(s, pool, DayOf(s.now)) < p.poolCap && !e.defers
      then row.(status := SkippedCap) else row
    else match e.reply
         case Transient => row
         case Permanent(detail) => row.(status := Failed, error := Some("permanent: " + detail))
         case Accept(token) => row.(status := Sent, token := Some(token), pool := Some(pool))
  }

  /** The row that goes with an outcome. */
  function RowWith(row: Row, o: Outcome, pool: string): Row {
    if row.status != Pending then row
    else
      match o
      case Stopped(SuppressedNow) => row.(status := SkippedSuppressed)
      case Stopped(NoTemplate) => row.(status := Failed, error := Some("campaign has no template"))
      case CapReached => row.(status := SkippedCap)
      case RejectedByPostal(detail) => row.(status := Failed, error := Some("permanent: " + detail))
      case WentOut(token) => row.(status := Sent, token := Some(token), pool := Some(pool))
      case _ => row
  }

  predicate Sensible(l: Ledger, r: int, o: Outcome) {
    r in l.rows && (o.Stopped? && (o.why.SuppressedNow? || o.why.NoTemplate?) ==> l.rows[r].status == Pending)
  }

  /** One row changes, and the campaign completes with its last pending row. */
  lemma OutcomeRewrites(l: Ledger, r: int, o: Outcome, pool: string)
    requires Sensible(l, r, o) && l.rows[r].campaign in l.campaigns
    ensures var m, row, c := LedgerWith(l, r, o, pool), RowWith(l.rows[r], o, pool), l.rows[r].campaign;
            && m.rows == l.rows[r := row] && c in m.campaigns
            && (l.campaigns[c].status != Completed ==>
                  (m.campaigns[c].status == Completed <==>
                     l.campaigns[c].status == Sending && row.status != l.rows[r].status
                     && Count(m.rows, c, {Pending}) == 0))
  {
    assert l.rows[r := l.rows[r]] == l.rows;
  }

  lemma TaskIsSensible(p: Policy, s: Sys, r: int, e: Surroundings, pool: string)
    requires RowPool(s.ledger, r, pool)
    ensures Sensible(s.ledger, r, OutcomeOf(p, s, r, e))
    ensures RowWith(s.ledger.rows[r], OutcomeOf(p, s, r, e), PoolOf(s, r, e)) == RowLeft(p, s, r, e, pool)
  {
    ProceedsWhen(s.ledger, r, e.cap, e.defers);
    TaskUsesPool(p, s, r, e, pool);
  }

  /** What a task does to its row, case by case; other rows are untouched. */
  lemma TaskLeavesRow(p: Policy, s: Sys, r: int, e: Surroundings, pool: string)
    requires RowPool(s.ledger, r, pool)
    ensures var l := LedgerWith(s.ledger, r, OutcomeOf(p, s, r, e), PoolOf(s, r, e));
            l.rows == s.ledger.rows[r := RowLeft(p, s, r, e, pool)]
  {
    TaskIsSensible(p, s, r, e, pool);
    OutcomeRewrites(s.ledger, r, OutcomeOf(p, s, r, e), PoolOf(s, r, e));
  }

  /** The campaign is completed exactly when it was sending and its last pending row has been settled by the task. */
  lemma TaskCompletes(p: Policy, s: Sys, r: int, e: Surroundings, pool: string)
    requires RowPool(s.ledger, r, pool) && s.ledger.campaigns[s.ledger.rows[r].campaign].status != Completed
    ensures var l, c := LedgerWith(s.ledger, r, OutcomeOf(p, s, r, e), PoolOf(s, r, e)), s.ledger.rows[r].campaign;
            && c in l.campaigns
            && (l.campaigns[c].status == Completed <==>
                  s.ledger.campaigns[c].status == Sending
                  && RowLeft(p, s, r, e, pool).status != s.ledger.rows[r].status && Count(l.rows, c, {Pending}) == 0)
  {
    TaskIsSensible(p, s, r, e, pool);
    OutcomeRewrites(s.ledger, r, OutcomeOf(p, s, r, e), PoolOf(s, r, e));
  }

  /** What went out is on the ledger with Postal's token. */
  lemma SentIsStored(p: Policy, s: Sys, r: int, e: Surroundings)
    requires OutcomeOf(p, s, r, e).WentOut?
    ensures Stored(LedgerWith(s.ledger, r, OutcomeOf(p, s, r, e), PoolOf(s, r, e)), r, OutcomeOf(p, s, r, e).token)
  {
  }

  /** A task goes out if and only if nothing stands in its way. */
  lemma GoesOutWhen(p: Policy, s: Sys, r: int, e: Surroundings)
    ensures OutcomeOf(p, s, r, e).WentOut? <==> !Held(s, r) && GoesOn(p, s, r, e)
  {
  }

  ghost function PoolOf(s: Sys, r: int, e: Surroundings): string {
    var d := Validate(s.ledger, r, e.cap, e.defers);
    if d.Proceed? then d.job.pool else ""
  }

  ghost predicate Stored(l: Ledger, r: int, token: string) {
    r in l.rows && l.rows[r].status == Sent && l.rows[r].token == Some(token)
  }

  /** The decisions do not look at locks and workers. */
  lemma SameDecisions(p: Policy, s: Sys, t: Sys, r: int, e: Surroundings)
    requires t == s.(locks := t.locks, workers := t.workers)
    ensures PoolOf(t, r, e) == PoolOf(s, r, e)
    ensures forall job :: AtLimits(p, t, job, e) == AtLimits(p, s, job, e)
  {
    forall job ensures AtLimits(p, t, job, e) == AtLimits(p, s, job, e) {
      assert PoolUsed(t, job.pool, DayOf(t.now)) == PoolUsed(s, job.pool, DayOf(s.now));
      assert TotalUsed(t, DayOf(t.now)) == TotalUsed(s, DayOf(s.now));
    }
  }

  /** A property that no step of the protocol can break. */
  ghost predicate Kept(p: Policy, inv: Sys -> bool) {
    forall s, step | Enabled(p, s, step) && inv(s) :: inv(Apply(p, s, step))
  }

  ghost predicate Reachable(p: Policy, s: Sys, t: Sys) {
    exists steps :: Run(p, s, steps) && Exec(p, s, steps) == t
  }

  /** One such property is to be reachable from a given state: whatever `send_one` does is a run of the protocol. */
  lemma ReachableIsKept(p: Policy, s: Sys)
    ensures Reachable(p, s, s) && Kept(p, t => Reachable(p, s, t))
  {
    assert Run(p, s, []) && Exec(p, s, []) == s;
    forall t, step | Enabled(p, t, step) && Reachable(p, s, t) ensures Reachable(p, s, Apply(p, t, step)) {
      var steps :| Run(p, s, steps) && Exec(p, s, steps) == t;
      RunExtends(p, s, steps, step);
      assert Run(p, s, steps + [step]);
    }
  }

  /** Phase 1 as a step. */
  lemma PhaseOneStep(p: Policy, s: Sys, w: int, cap: int, defers: bool)
    requires w in s.workers && s.workers[w].Entering?
    ensures var x, t := s.workers[w], Apply(p, s, Phase1(w, cap, defers));
            var d := Validate(s.ledger, x.row, cap, defers);
            && t == s.(ledger := AfterPhase1(s.ledger, x.row, d), workers := t.workers)
            && (x.row !in s.ledger.rows ==> t.ledger == s.ledger)
            && t.workers == s.workers[w := if d.Proceed? then Working(x.row, x.since, d.job, Pace)
                                           else Leaving(x.row, x.since)]
            && (d.Proceed? ==> t.ledger == s.ledger && StillPending(s.ledger, x.row)
                               && s.ledger.rows[x.row].campaign == d.job.campaign)
  {
  }

  /** The states after the two counting steps. */
  function Counted(s: Sys, w: int): Sys
    requires w in s.workers && s.workers[w].Working?
  {
    var x, day := s.workers[w], DayOf(s.now);
    s.(poolSent := s.poolSent[(x.job.pool, day) := PoolUsed(s, x.job.pool, day) + 1],
       workers := s.workers[w := x.(stage := CountTotal)])
  }

  function CountedInTotal(s: Sys, w: int): Sys
    requires w in s.workers && s.workers[w].Working?
  {
    var x := s.workers[w];
    s.(totalSent := s.totalSent[DayOf(s.now) := TotalUsed(s, DayOf(s.now)) + 1],
       workers := s.workers[w := Leaving(x.row, x.since)])
  }

  lemma CountingIsAStep(p: Policy, s: Sys, w: int, inv: Sys -> bool)
    requires Kept(p, inv) && inv(s) && w in s.workers && s.workers[w].Working? && s.workers[w].stage == CountPool
    ensures inv(Counted(s, w))
  {
    assert inv(Apply(p, s, CountInPool(w)));
    assert Apply(p, s, CountInPool(w)) == Counted(s, w);
  }

  lemma CountingInTotalIsAStep(p: Policy, s: Sys, w: int, inv: Sys -> bool)
    requires Kept(p, inv) && inv(s) && w in s.workers && s.workers[w].Working? && s.workers[w].stage == CountTotal
    ensures inv(CountedInTotal(s, w))
  {
    assert inv(Apply(p, s, CountInTotal(w)));
    assert Apply(p, s, CountInTotal(w)) == CountedInTotal(s, w);
  }

  /** INCR on a key that counts as zero while it is absent. */
  function Incremented<K>(counts: map<K, int>, key: K): map<K, int> {
    counts[key := (if key in counts then counts[key] else 0) + 1]
  }

  /** The Redis keys of the daily counters. */
  datatype DayKey = PoolKey(pool: string, day: int) | TotalKey(day: int)

  /** The first increment of a counter makes it expire an hour after midnight, give or take. */
  function ExpiryFrom(now: int): int {
    now + (SecondsToMidnight(now) + 3600) * SECOND
  }

  /** So a counter is there as long as its day lasts. */
  lemma CounterOutlivesItsDay(now: int)
    ensures (DayOf(now) + 1) * DAY + 3599 * SECOND < ExpiryFrom(now) <= (DayOf(now) + 1) * DAY + 3660 * SECOND
  {
  }

  class Mailer {
    const p: Policy
    const w: int
    const db: Tables
    var locks: map<int, int>
    var poolSent: map<(string, int), int>
    var totalSent: map<int, int>
    var expiries: map<DayKey, int>
    var now: int

    /** The state of the protocol that tables, keys and the place in the program stand for. */
    ghost var sys: Sys

    /** Any property the protocol keeps. */
    ghost const inv: Sys -> bool

    ghost predicate Follows()
      reads this, db
    {
      && Mirrors(sys) && w in sys.workers && inv(sys)
    }

    ghost predicate Mirrors(s: Sys)
      reads this, db
    {
      && db.Books() == s.ledger && db.lastSent == s.lastSent && db.contacts == s.contacts
      && locks == s.locks && poolSent == s.poolSent && totalSent == s.totalSent && now == s.now
    }

    /** A send was counted once against its pool and once in the total of its day; without one nothing was counted. */
    ghost predicate SendCounted(pools: map<(string, int), int>, totals: map<int, int>, pool: string, sent: bool)
      reads this
    {
      var day := DayOf(now);
      if sent then poolSent == Incremented(pools, (pool, day)) && totalSent == Incremented(totals, day)
      else poolSent == pools && totalSent == totals
    }

    ghost predicate Is(x: Worker)
      reads this, db
    {
      Follows() && sys.workers[w] == x
    }

    constructor (p: Policy, w: int, db: Tables, s: Sys, ghost inv: Sys -> bool)
      requires w in s.workers && db.Books() == s.ledger && db.lastSent == s.lastSent && db.contacts == s.contacts
      requires inv(s)
      ensures Follows() && sys == s && this.p == p && this.w == w && this.db == db && this.inv == inv
    {
      this.p, this.w, this.db, this.inv := p, w, db, inv;
      locks, poolSent, totalSent, now := s.locks, s.poolSent, s.totalSent, s.now;
      expiries := map[];
      sys := s;
    }

    // ----- One statement, one step -----

    method TryLock(r: int) returns (ok: bool)
      requires Kept(p, inv) && Is(Idle)
      modifies this`locks, this`sys
      ensures ok <==> !Held(old(sys), r)
      ensures Is(if ok then Entering(r, now) else Idle)
      ensures sys == old(sys).(locks := locks, workers := sys.workers)
    {
      ok := !(r in locks && now < locks[r]);
      if ok { locks := locks[r := now + LOCK_TTL]; }
      sys := Apply(p, sys, TakeLock(w, r));
    }

    method Unlock(r: int)
      requires Kept(p, inv) && Follows() && sys.workers[w].Leaving? && sys.workers[w].row == r
      modifies this`locks, this`sys
      ensures Is(Idle) && r !in locks
      ensures sys == old(sys).(locks := locks, workers := sys.workers)
    {
      locks := locks - {r};
      sys := Apply(p, sys, ReleaseLock(w));
    }

    /** At work on the row, which is still pending. */
    ghost predicate At(r: int, job: Job, stage: Stage)
      reads this, db
    {
      && Follows() && sys.workers[w].Working? && sys.workers[w].row == r && sys.workers[w].job == job
      && sys.workers[w].stage == stage && StillPending(sys.ledger, r) && sys.ledger.rows[r].campaign == job.campaign
    }

    ghost predicate Done(r: int)
      reads this, db
    {
      Follows() && sys.workers[w].Leaving? && sys.workers[w].row == r
    }

    method Examine(r: int, e: Surroundings) returns (d: Decision)
      requires Kept(p, inv) && Follows() && sys.workers[w].Entering? && sys.workers[w].row == r
      modifies db`rows, db`campaigns, this`sys
      ensures d == Validate(old(sys).ledger, r, e.cap, e.defers)
      ensures sys.ledger == if r in old(sys).ledger.rows then AfterPhase1(old(sys).ledger, r, d) else old(sys).ledger
      ensures if d.Proceed? then At(r, d.job, Pace) && sys.ledger == old(sys).ledger else Done(r)
      ensures sys == old(sys).(ledger := sys.ledger, workers := sys.workers)
    {
      PhaseOneStep(p, sys, w, e.cap, e.defers);
      d := db.Phase1(r, e.cap, e.defers);
      sys := Apply(p, sys, Phase1(w, e.cap, e.defers));
    }

    /** The rate limiter's verdict. */
    method Paced(r: int, job: Job, allowed: bool)
      requires Kept(p, inv) && At(r, job, Pace)
      modifies this`sys
      ensures if allowed then At(r, job, PoolCap) else Done(r)
      ensures sys == old(sys).(workers := sys.workers)
    {
      sys := Apply(p, sys, Acquire(w, allowed));
    }

    method UnderPoolCap(r: int, job: Job) returns (ok: bool)
      requires Kept(p, inv) && At(r, job, PoolCap)
      modifies this`sys
      ensures ok <==> PoolUsed(sys, job.pool, DayOf(now)) < p.poolCap
      ensures if ok then At(r, job, Stage.WarmingCap) else Done(r)
      ensures sys == old(sys).(workers := sys.workers)
    {
      var key := (job.pool, DayOf(now));
      ok := (if key in poolSent then poolSent[key] else 0) < p.poolCap;
      sys := Apply(p, sys, CheckPoolCap(w));
    }

    method UnderWarmingCap(r: int, job: Job) returns (ok: bool)
      requires Kept(p, inv) && At(r, job, Stage.WarmingCap)
      modifies this`sys
      ensures ok <==> TotalUsed(sys, DayOf(now)) < job.cap
      ensures if ok then At(r, job, Call) else if job.defers then Done(r) else At(r, job, Stage.HardStop)
      ensures sys == old(sys).(workers := sys.workers)
    {
      ok := (if DayOf(now) in totalSent then totalSent[DayOf(now)] else 0) < job.cap;
      sys := Apply(p, sys, CheckWarmingCap(w));
    }

    method SkipRow(r: int, job: Job)
      requires Kept(p, inv) && At(r, job, Stage.HardStop)
      modifies db`rows, db`campaigns, this`sys
      ensures Done(r) && sys.ledger == SkipForCap(old(sys).ledger, r) && sys.accepted == old(sys).accepted
    {
      db.HardStop(r, job.campaign);
      sys := Apply(p, sys, StopForCap(w));
    }

    /** While Postal takes its time, the clock runs. */
    method Wait(r: int, job: Job, elapsed: nat)
      requires Kept(p, inv) && At(r, job, Call)
      modifies this`now, this`sys
      ensures At(r, job, Call) && sys == old(sys).(now := old(sys).now + elapsed)
    {
      now := now + elapsed;
      sys := Apply(p, sys, Tick(now));
    }

    method HearPostal(r: int, job: Job, reply: Reply)
      requires Kept(p, inv) && At(r, job, Call)
      modifies this`sys
      ensures match reply
              case Accept(token) => At(r, job, Accepted(token))
              case Permanent(detail) => At(r, job, Rejected(detail))
              case Transient => Done(r)
      ensures sys.ledger == old(sys).ledger
      ensures Tokens(sys, r) == Tokens(old(sys), r) + if reply.Accept? then [reply.token] else []
    {
      sys := Apply(p, sys, Step.CallPostal(w, reply));
    }

    method FailRow(r: int, job: Job, detail: string)
      requires Kept(p, inv) && At(r, job, Rejected(detail))
      modifies db`rows, db`campaigns, this`sys
      ensures Done(r) && sys.ledger == FailPermanently(old(sys).ledger, r, detail) && sys.accepted == old(sys).accepted
    {
      db.PermanentFailure(r, job.campaign, detail);
      sys := Apply(p, sys, RecordRejection(w));
    }

    /** The commit of Phase 4; the row is there, since nobody deletes rows. */
    method Persist(r: int, job: Job, token: string)
      requires Kept(p, inv) && At(r, job, Accepted(token))
      modifies db`rows, db`campaigns, db`lastSent, this`sys
      ensures Follows() && sys.workers[w].Working? && sys.workers[w].row == r
      ensures sys.workers[w].job == job && sys.workers[w].stage == CountPool
      ensures sys.ledger == CommitSend(old(sys).ledger, r, job.pool, token) && Stored(sys.ledger, r, token)
      ensures sys == old(sys).(ledger := sys.ledger, lastSent := sys.lastSent, recorded := sys.recorded,
                               workers := sys.workers)
    {
      var found := db.PersistSuccess(r, job, token, now);
      assert found;
      sys := Apply(p, sys, RecordSend(w));
    }

    /** `record_daily_send`: INCR, and EXPIRE the first time. */
    method RecordDailySend(pool: string)
      modifies this`poolSent, this`expiries
      ensures poolSent == Incremented(old(poolSent), (pool, DayOf(now)))
      ensures expiries == if poolSent[(pool, DayOf(now))] == 1
                          then old(expiries)[PoolKey(pool, DayOf(now)) := ExpiryFrom(now)] else old(expiries)
    {
      var key := (pool, DayOf(now));
      var used := (if key in poolSent then poolSent[key] else 0) + 1;
      poolSent := poolSent[key := used];
      if used == 1 { expiries := expiries[PoolKey(pool, DayOf(now)) := ExpiryFrom(now)]; }
    }

    /** `record_global_send`. */
    method RecordGlobalSend()
      modifies this`totalSent, this`expiries
      ensures totalSent == Incremented(old(totalSent), DayOf(now))
      ensures expiries == if totalSent[DayOf(now)] == 1 then old(expiries)[TotalKey(DayOf(now)) := ExpiryFrom(now)]
                          else old(expiries)
    {
      var day := DayOf(now);
      var used := (if day in totalSent then totalSent[day] else 0) + 1;
      totalSent := totalSent[day := used];
      if used == 1 { expiries := expiries[TotalKey(day) := ExpiryFrom(now)]; }
    }

    method CountSend(r: int, job: Job)
      requires Kept(p, inv) && Follows() && sys.workers[w].Working? && sys.workers[w].row == r
      requires sys.workers[w].job == job && sys.workers[w].stage == CountPool
      modifies this`poolSent, this`expiries, this`sys
      ensures Follows() && sys == Counted(old(sys), w)
      ensures poolSent == Incremented(old(poolSent), (job.pool, DayOf(now)))
    {
      CountingIsAStep(p, sys, w, inv);
      RecordDailySend(job.pool);
      sys := Counted(sys, w);
    }

    method CountSendInTotal(r: int)
      requires Kept(p, inv) && Follows() && sys.workers[w].Working? && sys.workers[w].row == r
      requires sys.workers[w].stage == CountTotal
      modifies this`totalSent, this`expiries, this`sys
      ensures Follows() && sys == CountedInTotal(old(sys), w)
      ensures totalSent == Incremented(old(totalSent), DayOf(now))
    {
      CountingInTotalIsAStep(p, sys, w, inv);
      RecordGlobalSend();
      sys := CountedInTotal(sys, w);
    }

    // ----- The task -----

    /**
     A task that can send does, and records it; any other outcome leaves Postal without an acceptance. The lock is
     given back either way, and every property that the protocol keeps is kept.
     */
    method SendOne(r: int, e: Surroundings) returns (o: Outcome)
      requires Kept(p, inv) && Is(Idle)
      modifies this`locks, this`poolSent, this`totalSent, this`expiries, this`now, this`sys, db
      ensures Is(Idle)
      ensures o.Locked? || r !in locks
      ensures Tokens(sys, r) == Tokens(old(sys), r) + if o.WentOut? then [o.token] else []
      ensures SendCounted(old(poolSent), old(totalSent), PoolOf(old(sys), r, e), o.WentOut?)
      ensures o == OutcomeOf(p, old(sys), r, e)
      ensures db.Books() == LedgerWith(old(sys).ledger, r, o, PoolOf(old(sys), r, e))
      ensures forall pool | RowPool(old(sys).ledger, r, pool) ::
                && db.rows == old(db.rows)[r := RowLeft(p, old(sys), r, e, pool)]
                && (o.DailyCap? <==>
                     ReachesCaps(old(sys), r, e) && PoolUsed(old(sys), pool, DayOf(old(now))) >= p.poolCap)
                && (o.WentOut? ==> poolSent == Incremented(old(poolSent), (pool, DayOf(now))))
                && (!o.WentOut? ==> poolSent == old(poolSent))
    {
      ghost var before := sys;
      var ok := TryLock(r);
      if !ok { return Locked; }
      SameDecisions(p, old(sys), sys, r, e);
      o := Process(r, e);
      Unlock(r);
      forall pool | RowPool(before.ledger, r, pool)
        ensures db.rows == before.ledger.rows[r := RowLeft(p, before, r, e, pool)]
        ensures o.DailyCap? <==> ReachesCaps(before, r, e) && PoolUsed(before, pool, DayOf(before.now)) >= p.poolCap
        ensures o.WentOut? ==> PoolOf(before, r, e) == pool
      {
        TaskLeavesRow(p, before, r, e, pool);
        TaskUsesPool(p, before, r, e, pool);
      }
    }

    /** The body of the `try`. */
    method Process(r: int, e: Surroundings) returns (o: Outcome)
      requires Kept(p, inv) && Follows() && sys.workers[w].Entering? && sys.workers[w].row == r
      modifies this`poolSent, this`totalSent, this`expiries, this`now, this`sys, db
      ensures var d := Validate(old(sys).ledger, r, e.cap, e.defers);
              o == if d.Proceed? then AtLimits(p, old(sys), d.job, e) else Stopped(d)
      ensures Done(r) && sys.ledger == LedgerWith(old(sys).ledger, r, o, PoolOf(old(sys), r, e))
      ensures Tokens(sys, r) == Tokens(old(sys), r) + if o.WentOut? then [o.token] else []
      ensures SendCounted(old(poolSent), old(totalSent), PoolOf(old(sys), r, e), o.WentOut?)
    {
      var d := Examine(r, e);
      if d.Proceed? {
        o := CheckLimits(r, e, d.job);
      } else {
        o := Stopped(d);
      }
    }

    /** Phase 2. */
    method CheckLimits(r: int, e: Surroundings, job: Job) returns (o: Outcome)
      requires Kept(p, inv) && At(r, job, Pace) && job.cap == e.cap && job.defers == e.defers
      modifies this`poolSent, this`totalSent, this`expiries, this`now, this`sys, db
      ensures o == AtLimits(p, old(sys), job, e)
      ensures Done(r) && sys.ledger == LedgerWith(old(sys).ledger, r, o, job.pool)
      ensures Tokens(sys, r) == Tokens(old(sys), r) + if o.WentOut? then [o.token] else []
      ensures SendCounted(old(poolSent), old(totalSent), job.pool, o.WentOut?)
    {
      Paced(r, job, e.rate.allowed);
      if !e.rate.allowed { return RateLimited(TokenBucket.Countdown(e.rate.retryAfter)); }
      o := CheckCaps(r, e, job);
    }

    method CheckCaps(r: int, e: Surroundings, job: Job) returns (o: Outcome)
      requires Kept(p, inv) && At(r, job, PoolCap) && job.cap == e.cap && job.defers == e.defers
      modifies this`poolSent, this`totalSent, this`expiries, this`now, this`sys, db
      ensures o == AtCaps(p, old(sys), job, e)
      ensures Done(r) && sys.ledger == LedgerWith(old(sys).ledger, r, o, job.pool)
      ensures Tokens(sys, r) == Tokens(old(sys), r) + if o.WentOut? then [o.token] else []
      ensures SendCounted(old(poolSent), old(totalSent), job.pool, o.WentOut?)
    {
      var ok := UnderPoolCap(r, job);
      if !ok { return DailyCap(CapCountdown(now)); }
      o := CheckWarming(r, e, job);
    }

    method CheckWarming(r: int, e: Surroundings, job: Job) returns (o: Outcome)
      requires Kept(p, inv) && At(r, job, Stage.WarmingCap) && job.cap == e.cap && job.defers == e.defers
      modifies this`poolSent, this`totalSent, this`expiries, this`now, this`sys, db
      ensures o == AtWarmingCap(old(sys), e)
      ensures Done(r) && sys.ledger == LedgerWith(old(sys).ledger, r, o, job.pool)
      ensures Tokens(sys, r) == Tokens(old(sys), r) + if o.WentOut? then [o.token] else []
      ensures SendCounted(old(poolSent), old(totalSent), job.pool, o.WentOut?)
    {
      var ok := UnderWarmingCap(r, job);
      if !ok {
        if e.defers { return WarmingDeferred(3600); }
        SkipRow(r, job);
        return CapReached;
      }
      o := Deliver(r, e, job);
    }

    /** Phases 3 and 4. */
    method Deliver(r: int, e: Surroundings, job: Job) returns (o: Outcome)
      requires Kept(p, inv) && At(r, job, Call)
      modifies this`poolSent, this`totalSent, this`expiries, this`now, this`sys, db
      ensures o == AtPostal(e.reply)
      ensures Done(r) && sys.ledger == LedgerWith(old(sys).ledger, r, o, job.pool)
      ensures Tokens(sys, r) == Tokens(old(sys), r) + if o.WentOut? then [o.token] else []
      ensures SendCounted(old(poolSent), old(totalSent), job.pool, o.WentOut?)
    {
      Wait(r, job, e.elapsed);
      o := CallAndRecord(r, job, e.reply);
    }

    method CallAndRecord(r: int, job: Job, reply: Reply) returns (o: Outcome)
      requires Kept(p, inv) && At(r, job, Call)
      modifies this`poolSent, this`totalSent, this`expiries, this`sys, db
      ensures o == AtPostal(reply) && Done(r)
      ensures o.Retried? ==> sys.ledger == old(sys).ledger
      ensures o.RejectedByPostal? ==> sys.ledger == FailPermanently(old(sys).ledger, r, o.detail)
      ensures o.WentOut? ==> sys.ledger == CommitSend(old(sys).ledger, r, job.pool, o.token)
      ensures Tokens(sys, r) == Tokens(old(sys), r) + if o.WentOut? then [o.token] else []
      ensures SendCounted(old(poolSent), old(totalSent), job.pool, o.WentOut?)
    {
      HearPostal(r, job, reply);
      match reply
      case Transient => o := Retried;
      case Permanent(detail) =>
        FailRow(r, job, detail);
        o := RejectedByPostal(detail);
      case Accept(token) =>
        Record(r, job, token);
        o := WentOut(token);
    }

    /** Phase 4 and the two counters. */
    method Record(r: int, job: Job, token: string)
      requires Kept(p, inv) && At(r, job, Accepted(token))
      modifies this`poolSent, this`totalSent, this`expiries, this`sys, db`rows, db`campaigns, db`lastSent
      ensures Done(r) && sys.ledger == CommitSend(old(sys).ledger, r, job.pool, token)
      ensures Tokens(sys, r) == Tokens(old(sys), r)
      ensures SendCounted(old(poolSent), old(totalSent), job.pool, true)
    {
      Persist(r, job, token);
      CountSend(r, job);
      CountSendInTotal(r);
    }
  }
}
