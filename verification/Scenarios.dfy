/** Runs in which an assumption of a theorem does not hold, and its conclusion fails with it. */
module Scenarios {
  import opened Text
  import opened RecipientLedger
  import opened Protocol
  import opened FrequencyRule

  // ----- Building runs -----

  /** The steps are a run from `s` to `t`. */
  ghost predicate Path(p: Policy, s: Sys, steps: seq<Step>, t: Sys) {
    Run(p, s, steps) && Exec(p, s, steps) == t
  }

  lemma Follow(p: Policy, s: Sys, steps: seq<Step>, t: Sys, step: Step) returns (more: seq<Step>)
    requires Path(p, s, steps, t) && Enabled(p, t, step)
    ensures Path(p, s, more, Apply(p, t, step))
  {
    RunExtends(p, s, steps, step);
    more := steps + [step];
  }

  // ----- One worker on its way to Postal -----

  ghost predicate PoolsOpen(p: Policy, s: Sys) {
    forall pool :: PoolUsed(s, pool, DayOf(s.now)) < p.poolCap
  }

  function JobOf(l: Ledger, r: int, cap: int): Job
    requires Validate(l, r, cap, false).Proceed?
  {
    Validate(l, r, cap, false).job
  }

  /** `s` with the lock of `r` taken by `v`, which stands there. */
  ghost function Locked(s: Sys, v: int, r: int, x: Worker): Sys {
    s.(locks := s.locks[r := s.now + LOCK_TTL], workers := s.workers[v := x])
  }

  ghost function Staged(s: Sys, v: int, r: int, cap: int, stage: Stage): Sys
    requires Validate(s.ledger, r, cap, false).Proceed?
  {
    Locked(s, v, r, Working(r, s.now, JobOf(s.ledger, r, cap), stage))
  }

  lemma SendableProceeds(l: Ledger, r: int, cap: int)
    requires Sendable(l, r)
    ensures Validate(l, r, cap, false).Proceed? && JobOf(l, r, cap).cap == cap
    ensures JobOf(l, r, cap).campaign == l.rows[r].campaign && JobOf(l, r, cap).contact == l.rows[r].contact
    ensures JobOf(l, r, cap).freq == l.campaigns[l.rows[r].campaign].parent
  {
  }

  lemma Enter(p: Policy, s: Sys, v: int, r: int, cap: int)
    requires v in s.workers && s.workers[v].Idle? && !Held(s, r) && Validate(s.ledger, r, cap, false).Proceed?
    ensures Enabled(p, s, TakeLock(v, r)) && Apply(p, s, TakeLock(v, r)) == Locked(s, v, r, Entering(r, s.now))
    ensures var t := Locked(s, v, r, Entering(r, s.now));
            Enabled(p, t, Phase1(v, cap, false)) && Apply(p, t, Phase1(v, cap, false)) == Staged(s, v, r, cap, Pace)
  {
  }

  lemma PassLimiter(p: Policy, s: Sys, v: int, r: int, cap: int)
    requires Validate(s.ledger, r, cap, false).Proceed?
    ensures var t := Staged(s, v, r, cap, Pace);
            Enabled(p, t, Acquire(v, true)) && Apply(p, t, Acquire(v, true)) == Staged(s, v, r, cap, PoolCap)
  {
  }

  lemma PassPoolCap(p: Policy, s: Sys, v: int, r: int, cap: int)
    requires Validate(s.ledger, r, cap, false).Proceed? && PoolsOpen(p, s)
    ensures var t := Staged(s, v, r, cap, PoolCap);
            Enabled(p, t, CheckPoolCap(v)) && Apply(p, t, CheckPoolCap(v)) == Staged(s, v, r, cap, WarmingCap)
  {
    var t, pool := Staged(s, v, r, cap, PoolCap), JobOf(s.ledger, r, cap).pool;
    assert PoolUsed(t, pool, DayOf(t.now)) == PoolUsed(s, pool, DayOf(s.now));
  }

  lemma PassWarmingCap(p: Policy, s: Sys, v: int, r: int, cap: int)
    requires Validate(s.ledger, r, cap, false).Proceed? && JobOf(s.ledger, r, cap).cap == cap
    requires TotalUsed(s, DayOf(s.now)) < cap
    ensures var t := Staged(s, v, r, cap, WarmingCap);
            Enabled(p, t, CheckWarmingCap(v)) && Apply(p, t, CheckWarmingCap(v)) == Staged(s, v, r, cap, Call)
  {
    var t := Staged(s, v, r, cap, WarmingCap);
    assert TotalUsed(t, DayOf(t.now)) == TotalUsed(s, DayOf(s.now));
  }

  /** An idle worker can bring a sendable row whose lock is free to the call. */
  lemma BringToCall(p: Policy, s: Sys, steps: seq<Step>, t: Sys, v: int, r: int) returns (more: seq<Step>, cap: int)
    requires Path(p, s, steps, t) && v in t.workers && t.workers[v].Idle? && !Held(t, r) && Sendable(t.ledger, r)
    requires PoolsOpen(p, t)
    ensures Validate(t.ledger, r, cap, false).Proceed? && Path(p, s, more, Staged(t, v, r, cap, Call))
  {
    cap := TotalUsed(t, DayOf(t.now)) + 1;
    SendableProceeds(t.ledger, r, cap);
    Enter(p, t, v, r, cap);
    PassLimiter(p, t, v, r, cap);
    PassPoolCap(p, t, v, r, cap);
    PassWarmingCap(p, t, v, r, cap);
    more := Follow(p, s, steps, t, TakeLock(v, r));
    more := Follow(p, s, more, Locked(t, v, r, Entering(r, t.now)), Phase1(v, cap, false));
    more := Follow(p, s, more, Staged(t, v, r, cap, Pace), Acquire(v, true));
    more := Follow(p, s, more, Staged(t, v, r, cap, PoolCap), CheckPoolCap(v));
    more := Follow(p, s, more, Staged(t, v, r, cap, WarmingCap), CheckWarmingCap(v));
  }

  /** Postal accepts. */
  lemma Accepts(p: Policy, s: Sys, steps: seq<Step>, t: Sys, v: int, token: string) returns (more: seq<Step>, u: Sys)
    requires Path(p, s, steps, t) && At(t, v, Call)
    ensures Path(p, s, more, u)
    ensures u == t.(accepted := u.accepted, acceptedTo := u.acceptedTo, acceptedFor := u.acceptedFor,
                    workers := t.workers[v := t.workers[v].(stage := Accepted(token))])
    ensures u.accepted == t.accepted[t.workers[v].row := Tokens(t, t.workers[v].row) + [token]]
  {
    more := Follow(p, s, steps, t, CallPostal(v, Accept(token)));
    u := Apply(p, t, CallPostal(v, Accept(token)));
  }

  // ----- Two acceptances for one row -----

  /** At a lapsed lock the next worker takes the row, and both it and the late holder have it accepted. */
  lemma BothPastLapsedLock(p: Policy, s: Sys, steps: seq<Step>, t: Sys, w: int, v: int, t1: string, t2: string)
    returns (more: seq<Step>, u: Sys)
    requires Path(p, s, steps, t) && At(t, w, Call) && v in t.workers && t.workers[v].Idle? && PoolsOpen(p, t)
    requires !Held(t, t.workers[w].row) && Sendable(t.ledger, t.workers[w].row)
    ensures Path(p, s, more, u) && Tokens(u, t.workers[w].row) == Tokens(t, t.workers[w].row) + [t2] + [t1]
  {
    var t3;
    more, t3 := SendFromIdle(p, s, steps, t, v, t.workers[w].row, t2);
    more, u := Accepts(p, s, more, t3, w, t1);
  }

  /**
   The lock must outlive its holder. Two idle workers and a row that nothing forbids to send: if the first is held up
   for as long as its lock lives, the second takes the row over, and Postal accepts it twice.
   */
  lemma LapsedLockAllowsTwo(p: Policy, s0: Sys, before: seq<Step>, s: Sys, w: int, v: int, r: int,
                            t1: string, t2: string)
    returns (steps: seq<Step>, u: Sys)
    requires Path(p, s0, before, s)
    requires w != v && w in s.workers && s.workers[w].Idle? && v in s.workers && s.workers[v].Idle?
    requires Sendable(s.ledger, r) && !Held(s, r)
    requires PoolsOpen(p, s) && PoolsOpen(p, s.(now := s.now + LOCK_TTL))
    ensures Path(p, s0, steps, u) && Tokens(u, r) == Tokens(s, r) + [t2] + [t1]
  {
    var cap;
    steps, cap := BringToCall(p, s0, before, s, w, r);
    var late := Staged(s, w, r, cap, Call).(now := s.now + LOCK_TTL);
    steps := Follow(p, s0, steps, Staged(s, w, r, cap, Call), Tick(s.now + LOCK_TTL));
    assert Apply(p, Staged(s, w, r, cap, Call), Tick(s.now + LOCK_TTL)) == late;
    StillOpen(p, s.(now := s.now + LOCK_TTL), late);
    steps, u := BothPastLapsedLock(p, s0, steps, late, w, v, t1, t2);
  }

  /**
   A worker must not die between Postal's answer and the commit: an idle worker takes a row, gets it accepted and
   dies, and the row, still pending, is accepted again.
   */
  lemma CrashAllowsTwo(p: Policy, s0: Sys, before: seq<Step>, s: Sys, w: int, r: int, t1: string, t2: string)
    returns (steps: seq<Step>, u: Sys)
    requires Path(p, s0, before, s)
    requires w in s.workers && s.workers[w].Idle? && Sendable(s.ledger, r) && !Held(s, r) && PoolsOpen(p, s)
    ensures Path(p, s0, steps, u) && Tokens(u, r) == Tokens(s, r) + [t1] + [t2]
  {
    var cap, t, free;
    steps, cap := BringToCall(p, s0, before, s, w, r);
    steps, t := Accepts(p, s0, steps, Staged(s, w, r, cap, Call), w, t1);
    steps, free := DieAndRelease(p, s0, steps, t, w);
    StillOpen(p, s, free);
    steps, u := SendFromIdle(p, s0, steps, free, w, r, t2);
    assert Tokens(free, r) == Tokens(t, r);
  }

  /** The exception reaches the `finally` clause, which gives the lock back. */
  lemma DieAndRelease(p: Policy, s: Sys, steps: seq<Step>, t: Sys, w: int) returns (more: seq<Step>, u: Sys)
    requires Path(p, s, steps, t) && w in t.workers && t.workers[w].Working?
    ensures Path(p, s, more, u) && u == t.(workers := t.workers[w := Idle], locks := t.locks - {t.workers[w].row})
  {
    var x := t.workers[w];
    var dead := t.(workers := t.workers[w := Leaving(x.row, x.since)]);
    more := Follow(p, s, steps, t, Crash(w, true));
    assert Apply(p, t, Crash(w, true)) == dead;
    more := Follow(p, s, more, dead, ReleaseLock(w));
    u := Apply(p, dead, ReleaseLock(w));
  }

  lemma SendFromIdle(p: Policy, s: Sys, steps: seq<Step>, t: Sys, v: int, r: int, token: string)
    returns (more: seq<Step>, u: Sys)
    requires Path(p, s, steps, t) && v in t.workers && t.workers[v].Idle? && !Held(t, r) && Sendable(t.ledger, r)
    requires PoolsOpen(p, t)
    ensures Path(p, s, more, u) && Tokens(u, r) == Tokens(t, r) + [token]
    ensures v in u.workers && u.workers == t.workers[v := u.workers[v]]
  {
    var cap;
    more, cap := BringToCall(p, s, steps, t, v, r);
    more, u := Accepts(p, s, more, Staged(t, v, r, cap, Call), v, token);
  }

  // ----- From the start of an installation -----

  const FIRST: Campaign := Campaign(Draft, None, None, {1}, Some("template"), None, 0, 0, 0, 0, 0, 0, 0, 0)

  /** A ledger that holds that one campaign and nothing else. */
  function With(l: Ledger, status: CampaignStatus, at: Option<int>): Ledger {
    l.(campaigns := map[1 := FIRST.(status := status, scheduledAt := at)])
  }

  lemma CreateFirst(p: Policy, s: Sys)
    requires s.ledger.campaigns == map[]
    ensures Enabled(p, s, Create(1, FIRST))
    ensures Apply(p, s, Create(1, FIRST)) == s.(ledger := With(s.ledger, Draft, None))
  {
    assert s.ledger.campaigns[1 := FIRST] == map[1 := FIRST];
  }

  lemma ScheduleFirst(p: Policy, s: Sys)
    requires s.ledger == With(s.ledger, Draft, None)
    ensures Apply(p, s, Schedule(1, s.now, true)) == s.(ledger := With(s.ledger, Scheduled, Some(s.now)))
  {
  }

  lemma DispatchFirst(p: Policy, s: Sys)
    requires s.ledger == With(s.ledger, Scheduled, Some(s.now))
    ensures Apply(p, s, Dispatch) == s.(ledger := With(s.ledger, Sending, Some(s.now)))
  {
  }

  /** The campaign is made, a contact is added, the campaign is scheduled and dispatched. */
  lemma StartSending(p: Policy, s: Sys, contacts: map<int, Contact>) returns (steps: seq<Step>)
    requires s.ledger.campaigns == map[]
    ensures Path(p, s, steps, s.(contacts := contacts, ledger := With(s.ledger, Sending, Some(s.now))))
  {
    CreateFirst(p, s);
    steps := Follow(p, s, [], s, Create(1, FIRST));
    var s1 := s.(ledger := With(s.ledger, Draft, None));
    var s2 := s1.(contacts := contacts);
    steps := AddContacts(p, s, steps, s1, contacts);
    ScheduleFirst(p, s2);
    steps := Follow(p, s, steps, s2, Schedule(1, s.now, true));
    var s3 := s2.(ledger := With(s.ledger, Scheduled, Some(s.now)));
    DispatchFirst(p, s3);
    steps := Follow(p, s, steps, s3, Dispatch);
  }

  lemma AddContacts(p: Policy, s: Sys, steps: seq<Step>, t: Sys, contacts: map<int, Contact>) returns (more: seq<Step>)
    requires Path(p, s, steps, t)
    ensures Path(p, s, more, t.(contacts := contacts))
  {
    more := Follow(p, s, steps, t, ChangeContacts(contacts));
    assert Apply(p, t, ChangeContacts(contacts)) == t.(contacts := contacts);
  }

  lemma MaterializeFirst(p: Policy, s: Sys, row: Row)
    requires s.ledger == With(s.ledger, Sending, Some(s.now)) && s.ledger.rows == map[]
    requires s.contacts == map[1 := Contact(row.email, 1, Active)] && row.email !in s.ledger.suppressions
    requires NormalizeEmail(row.email) == Some(row.email)
    requires row == Row(1, 1, row.email, None, Pending, None, None, None)
    ensures Enabled(p, s, Materialize(1, map[1 := row]))
    ensures var t := Apply(p, s, Materialize(1, map[1 := row])); t == s.(ledger := t.ledger) && Sendable(t.ledger, 1)
  {
    FirstSnapshot(s, row);
  }

  /** One campaign, one contact: after five steps there is a row to send. */
  lemma SendableFromStart(p: Policy, s: Sys, email: string) returns (steps: seq<Step>, t: Sys)
    requires Start(s) && NormalizeEmail(email) == Some(email) && email !in s.ledger.suppressions
    ensures Path(p, s, steps, t) && Sendable(t.ledger, 1)
    ensures t.workers == s.workers && t.locks == map[] && t.poolSent == map[] && t.accepted == map[] && t.now == s.now
  {
    var contacts := map[1 := Contact(email, 1, Active)];
    var row := Row(1, 1, email, None, Pending, None, None, None);
    steps := StartSending(p, s, contacts);
    var ready := s.(contacts := contacts, ledger := With(s.ledger, Sending, Some(s.now)));
    MaterializeFirst(p, ready, row);
    steps := Follow(p, s, steps, ready, Materialize(1, map[1 := row]));
    t := Apply(p, ready, Materialize(1, map[1 := row]));
  }

  /** Both happen to an installation with two workers and its first message. */
  lemma AcceptedTwiceFromStart(p: Policy, s: Sys, w: int, v: int, email: string, crash: bool)
    returns (steps: seq<Step>, u: Sys)
    requires Start(s) && NormalizeEmail(email) == Some(email) && email !in s.ledger.suppressions && p.poolCap >= 1
    requires w != v && w in s.workers && v in s.workers
    ensures Path(p, s, steps, u) && |Tokens(u, 1)| == 2
  {
    var before, t := SendableFromStart(p, s, email);
    assert PoolsOpen(p, t) && PoolsOpen(p, t.(now := t.now + LOCK_TTL));
    if crash {
      steps, u := CrashAllowsTwo(p, s, before, t, w, 1, "1", "2");
    } else {
      steps, u := LapsedLockAllowsTwo(p, s, before, t, w, v, 1, "1", "2");
    }
  }

  lemma FirstSnapshot(s: Sys, row: Row)
    requires s.ledger.rows == map[] && 1 in s.ledger.campaigns && s.ledger.campaigns[1].lists == {1}
    requires s.contacts == map[1 := Contact(row.email, 1, Active)] && row.email !in s.ledger.suppressions
    requires row == Row(1, 1, row.email, s.ledger.campaigns[1].pool, Pending, None, None, None)
    ensures Snapshot(s.ledger, s.contacts, {}, 1, map[1 := row])
  {
    assert Due(s.ledger, s.contacts, 1, 1);
    forall k | Due(s.ledger, s.contacts, 1, k) ensures exists r :: r in map[1 := row] && map[1 := row][r].contact == k {
      assert map[1 := row][1].contact == 1;
    }
  }

  // ----- Two sends within the interval -----

  lemma RecordBoth(p: Policy, s: Sys, w: int, v: int, key: (int, int))
    requires Sound(s.ledger) && Enabled(p, s, RecordSend(w)) && Enabled(p, s, RecordSend(v)) && p.interval >= 0
    requires JobFits(s.ledger, s.workers[w]) && JobFits(s.ledger, s.workers[v])
    requires s.workers[w].row != s.workers[v].row
    requires Awaits(s.ledger, s.workers[w].row, key) && Awaits(s.ledger, s.workers[v].row, key)
    ensures var t := Apply(p, s, RecordSend(w));
            && Enabled(p, t, RecordSend(v))
            && RecordedTimes(Apply(p, t, RecordSend(v)), key) == RecordedTimes(s, key) + [s.now] + [s.now]
  {
    var t := Apply(p, s, RecordSend(w));
    RecordedAfter(p, s, w, key);
    assert t.workers[v] == s.workers[v] && StillPending(t.ledger, s.workers[v].row);
    assert SendRecorded(t.ledger, t.workers[v]) == Some(key);
    RecordedAfter(p, t, v, key);
  }

  /** Two idle workers, two sendable rows: both rows can be accepted and not yet recorded. */
  lemma BothAccepted(p: Policy, s: Sys, w: int, v: int, r: int, q: int) returns (steps: seq<Step>, t: Sys)
    requires PoolsOpen(p, s) && w != v && w in s.workers && s.workers[w].Idle? && v in s.workers && s.workers[v].Idle?
    requires r != q && Sendable(s.ledger, r) && Sendable(s.ledger, q) && !Held(s, r) && !Held(s, q)
    ensures Path(p, s, steps, t) && t.ledger == s.ledger && t.now == s.now && t.recorded == s.recorded
    ensures w in t.workers && HasAnswer(t.ledger, t.workers[w], r) && v in t.workers
    ensures HasAnswer(t.ledger, t.workers[v], q)
  {
    var c1, c2, s3;
    steps, c1 := BringToCall(p, s, [], s, w, r);
    var s1 := Staged(s, w, r, c1, Call);
    StillOpen(p, s, s1);
    steps, c2 := BringToCall(p, s, steps, s1, v, q);
    var s2 := Staged(s1, v, q, c2, Call);
    steps, s3 := Accepts(p, s, steps, s2, w, "1");
    steps, t := Accepts(p, s, steps, s3, v, "2");
    SendableProceeds(s.ledger, r, c1);
    SendableProceeds(s.ledger, q, c2);
  }

  lemma StillOpen(p: Policy, s: Sys, t: Sys)
    requires PoolsOpen(p, s) && t.poolSent == s.poolSent && t.now == s.now
    ensures PoolsOpen(p, t)
  {
    forall pool ensures PoolUsed(t, pool, DayOf(t.now)) == PoolUsed(s, pool, DayOf(s.now)) {}
  }

  ghost predicate HasAnswer(l: Ledger, x: Worker, r: int) {
    x.Working? && x.row == r && x.stage.Accepted? && r in l.rows && l.rows[r].campaign in l.campaigns && JobFits(l, x)
  }

  /**
   Why siblings must not overlap: two pending rows of two runs of a recurring campaign for the same contact can be
   sent and recorded at the same moment.
   */
  lemma SiblingsDefeatTheRule(p: Policy, s: Sys, w: int, v: int, r: int, q: int, key: (int, int))
    returns (steps: seq<Step>)
    requires Sound(s.ledger) && p.interval >= 0 && PoolsOpen(p, s)
    requires w != v && w in s.workers && s.workers[w].Idle? && v in s.workers && s.workers[v].Idle?
    requires r != q && Sendable(s.ledger, r) && Sendable(s.ledger, q) && !Held(s, r) && !Held(s, q)
    requires Awaits(s.ledger, r, key) && Awaits(s.ledger, q, key)
    ensures Run(p, s, steps) && RecordedTimes(Exec(p, s, steps), key) == RecordedTimes(s, key) + [s.now, s.now]
    ensures !Spaced(RecordedTimes(Exec(p, s, steps), key), p.interval)
  {
    var t;
    steps, t := BothAccepted(p, s, w, v, r, q);
    RecordBoth(p, t, w, v, key);
    steps := Follow(p, s, steps, t, RecordSend(w));
    steps := Follow(p, s, steps, Apply(p, t, RecordSend(w)), RecordSend(v));
    NotSpaced(RecordedTimes(s, key), s.now, p.interval);
  }

  lemma NotSpaced(times: seq<int>, now: int, gap: int)
    requires gap >= 0
    ensures times + [now] + [now] == times + [now, now] && !Spaced(times + [now, now], gap)
  {
    var n := |times|;
    assert (times + [now, now])[n + 1] - (times + [now, now])[n] == 0;
  }
}
