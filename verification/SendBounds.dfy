/** Bounds over whole runs: how far the daily caps can be overshot and how long a send can outlive a stop. */
module SendBounds {
  import opened Text
  import opened RecipientLedger
  import opened Protocol

  lemma SubsetSize(a: set<int>, b: set<int>)
    requires a <= b
    ensures |a| <= |b|
  {
    assert b == a + (b - a);
  }

  // ----- Daily caps -----

  /** `Some(pool)` is the cap of one pool, `None` the warming cap over all pools. */
  function Used(s: Sys, pool: Option<string>, day: int): int {
    if pool.Some? then PoolUsed(s, pool.value, day) else TotalUsed(s, day)
  }

  /** Past the check of the cap, and still to be counted against it. */
  predicate InFlight(x: Worker, pool: Option<string>) {
    x.Working? &&
    if pool.Some?
    then x.job.pool == pool.value && (x.stage.WarmingCap? || x.stage.Call? || x.stage.Accepted? || x.stage.CountPool?)
    else x.stage.Call? || x.stage.Accepted? || x.stage.CountPool? || x.stage.CountTotal?
  }

  function Flight(s: Sys, pool: Option<string>): set<int> {
    set w | w in s.workers.Keys && InFlight(s.workers[w], pool)
  }

  ghost predicate CapHolds(s: Sys, pool: Option<string>, cap: int) {
    && Used(s, pool, DayOf(s.now)) + |Flight(s, pool)| <= cap + |s.workers| - 1
    && (forall d :: Used(s, pool, d) <= cap + |s.workers| - 1)
    && (forall d | d > DayOf(s.now) :: Used(s, pool, d) == 0)
  }

  /** The cap a worker compares with never exceeds `cap`. */
  ghost predicate CapAtMost(p: Policy, s: Sys, pool: Option<string>, cap: int) {
    if pool.Some? then p.poolCap <= cap
    else forall w | w in s.workers && s.workers[w].Working? :: s.workers[w].job.cap <= cap
  }

  predicate Counts(s: Sys, step: Step, pool: Option<string>) {
    match step
    case CountInPool(w) => w in s.workers && s.workers[w].Working? && pool == Some(s.workers[w].job.pool)
    case CountInTotal(w) => pool == None
    case _ => false
  }

  lemma UsedAfter(p: Policy, s: Sys, step: Step, pool: Option<string>, d: int)
    requires Enabled(p, s, step)
    ensures Used(Apply(p, s, step), pool, d) ==
            Used(s, pool, d) + if Counts(s, step, pool) && d == DayOf(s.now) then 1 else 0
  {
  }

  lemma FlightAfter(p: Policy, s: Sys, step: Step, pool: Option<string>, cap: int)
    requires Enabled(p, s, step) && ByWorker(step) && CapAtMost(p, s, pool, cap)
    ensures var x, y := s.workers[step.w], WorkerAfter(p, s, step);
            && (InFlight(y, pool) ==> InFlight(x, pool) || Used(s, pool, DayOf(s.now)) < cap)
            && (Counts(s, step, pool) ==> InFlight(x, pool) && !InFlight(y, pool))
  {
  }

  lemma StepKeepsCap(p: Policy, s: Sys, step: Step, pool: Option<string>, cap: int)
    requires CapHolds(s, pool, cap) && CapAtMost(p, s, pool, cap) && cap >= 1 && Enabled(p, s, step)
    ensures CapHolds(Apply(p, s, step), pool, cap)
  {
    var t := Apply(p, s, step);
    forall d
      ensures Used(t, pool, d) == Used(s, pool, d) + if Counts(s, step, pool) && d == DayOf(s.now) then 1 else 0
    {
      UsedAfter(p, s, step, pool, d);
    }
    if ByWorker(step) {
      FlightAfter(p, s, step, pool, cap);
      OneWorkerMoved(s, t, step.w, pool);
      ClockStandsStill(p, s, step);
    } else {
      assert t.workers == s.workers;
      ClockRuns(p, s, step);
      FlightFits(s, pool);
    }
  }

  lemma ClockStandsStill(p: Policy, s: Sys, step: Step)
    requires Enabled(p, s, step) && !step.Tick?
    ensures Apply(p, s, step).now == s.now
  {
  }

  lemma ClockRuns(p: Policy, s: Sys, step: Step)
    requires Enabled(p, s, step)
    ensures Apply(p, s, step).now >= s.now
  {
  }

  lemma FlightFits(s: Sys, pool: Option<string>)
    ensures |Flight(s, pool)| <= |s.workers|
  {
    SubsetSize(Flight(s, pool), s.workers.Keys);
  }

  lemma OneWorkerMoved(s: Sys, t: Sys, w: int, pool: Option<string>)
    requires w in s.workers && w in t.workers && t.workers == s.workers[w := t.workers[w]]
    ensures |t.workers| == |s.workers| && |Flight(t, pool)| <= |s.workers|
    ensures InFlight(s.workers[w], pool) || !InFlight(t.workers[w], pool) ==> |Flight(t, pool)| <= |Flight(s, pool)|
    ensures InFlight(s.workers[w], pool) && !InFlight(t.workers[w], pool) ==> |Flight(t, pool)| == |Flight(s, pool)| - 1
  {
    assert t.workers.Keys == s.workers.Keys;
    assert |t.workers| == |t.workers.Keys| && |s.workers| == |s.workers.Keys|;
    FlightFits(t, pool);
    if InFlight(s.workers[w], pool) && !InFlight(t.workers[w], pool) {
      assert Flight(t, pool) == Flight(s, pool) - {w};
    } else if InFlight(s.workers[w], pool) || !InFlight(t.workers[w], pool) {
      SubsetSize(Flight(t, pool), Flight(s, pool));
    }
  }

  predicate CapsReadAtMost(steps: seq<Step>, cap: int) {
    forall i | 0 <= i < |steps| && steps[i].Phase1? :: steps[i].cap <= cap
  }

  lemma StepKeepsJobCaps(p: Policy, s: Sys, step: Step, cap: int)
    requires CapAtMost(p, s, None, cap) && Enabled(p, s, step) && (step.Phase1? ==> step.cap <= cap)
    ensures CapAtMost(p, Apply(p, s, step), None, cap)
  {
  }

  lemma {:induction false} RunKeepsCap(p: Policy, s: Sys, steps: seq<Step>, pool: Option<string>, cap: int)
    requires Start(s) && Run(p, s, steps) && cap >= 1
    requires if pool.Some? then p.poolCap <= cap else CapsReadAtMost(steps, cap)
    ensures var t := Exec(p, s, steps);
            CapHolds(t, pool, cap) && CapAtMost(p, t, pool, cap) && |t.workers| == |s.workers|
  {
    if steps == [] {
      assert Flight(s, pool) == {} by { forall w: int ensures w !in Flight(s, pool) {} }
    } else {
      var before, step := steps[..|steps| - 1], steps[|steps| - 1];
      RunKeepsCap(p, s, before, pool, cap);
      StepKeepsCap(p, Exec(p, s, before), step, pool, cap);
      if pool.None? { StepKeepsJobCaps(p, Exec(p, s, before), step, cap); }
      WorkersStay(p, Exec(p, s, before), step);
    }
  }

  lemma WorkersStay(p: Policy, s: Sys, step: Step)
    requires Enabled(p, s, step)
    ensures Apply(p, s, step).workers.Keys == s.workers.Keys && |Apply(p, s, step).workers| == |s.workers|
  {
    var t := Apply(p, s, step);
    assert t.workers.Keys == s.workers.Keys;
    assert |t.workers| == |t.workers.Keys| && |s.workers| == |s.workers.Keys|;
  }

  /**
   Check first, count afterwards: on every day the sends counted against a pool, and those counted against the
   warming cap, stay within the cap plus the number of workers less one, also when a send is checked before
   midnight and counted after it.
   */
  lemma {:induction false} OvershootBounded(p: Policy, s: Sys, steps: seq<Step>, pool: string, day: int, cap: int)
    requires Start(s) && Run(p, s, steps) && p.poolCap >= 1 && cap >= 1 && CapsReadAtMost(steps, cap)
    ensures PoolUsed(Exec(p, s, steps), pool, day) <= p.poolCap + |s.workers| - 1
    ensures TotalUsed(Exec(p, s, steps), day) <= cap + |s.workers| - 1
  {
    RunKeepsCap(p, s, steps, Some(pool), p.poolCap);
    RunKeepsCap(p, s, steps, None, cap);
    assert Used(Exec(p, s, steps), Some(pool), day) == PoolUsed(Exec(p, s, steps), pool, day);
    assert Used(Exec(p, s, steps), None, day) == TotalUsed(Exec(p, s, steps), day);
  }

  // ----- Sends that outlive a stop -----

  /** What can be stopped: an address, by suppressing it, or a campaign, by pausing or cancelling it. */
  datatype Target = Address(email: string) | CampaignId(c: int)

  predicate Aims(job: Job, target: Target) {
    match target
    case Address(email) => NormalizeEmail(job.email) == Some(email)
    case CampaignId(c) => job.campaign == c
  }

  function AcceptedFor(s: Sys, target: Target): nat {
    match target
    case Address(email) => s.acceptedTo[email]
    case CampaignId(c) => s.acceptedFor[c]
  }

  ghost predicate Stopped(l: Ledger, target: Target) {
    match target
    case Address(email) => email in l.suppressions
    case CampaignId(c) => c in l.campaigns && l.campaigns[c].status !in {Sending, Scheduled}
  }

  /** A step that lifts the stop; a suppression is permanent. */
  predicate Lifts(step: Step, target: Target) {
    target.CampaignId? && ((step.Resume? && step.c == target.c) || (step.Schedule? && step.c == target.c))
  }

  /** Past Phase 1, Postal not called yet. */
  predicate OnItsWay(x: Worker, target: Target) {
    x.Working? && (x.stage.Pace? || x.stage.PoolCap? || x.stage.WarmingCap? || x.stage.Call?) && Aims(x.job, target)
  }

  function Underway(s: Sys, target: Target): set<int> {
    set w | w in s.workers.Keys && OnItsWay(s.workers[w], target)
  }

  /** No transaction but a resume or a schedule makes a campaign sending or scheduled again. */
  lemma CampaignStaysStopped(p: Policy, s: Sys, step: Step, c: int)
    requires Enabled(p, s, step) && Stopped(s.ledger, CampaignId(c)) && !Lifts(step, CampaignId(c))
    ensures Stopped(LedgerAfter(p, s, step), CampaignId(c))
  {
    if ByWorker(step) { WorkersStartNothing(p, s, step, c); }
  }

  /** A worker's transaction changes a status only to complete a sending campaign. */
  lemma WorkersStartNothing(p: Policy, s: Sys, step: Step, c: int)
    requires Enabled(p, s, step) && ByWorker(step) && c in s.ledger.campaigns && s.ledger.campaigns[c].status != Sending
    ensures c in LedgerAfter(p, s, step).campaigns
    ensures LedgerAfter(p, s, step).campaigns[c].status == s.ledger.campaigns[c].status
  {
    WorkerSettles(p, s, step);
    if LedgerAfter(p, s, step) != s.ledger {
      SettlingTouches(s.ledger, LedgerAfter(p, s, step), s.workers[step.w].row, step.RecordSend?);
    }
  }

  lemma StepKeepsStopped(p: Policy, s: Sys, step: Step, target: Target)
    requires Sound(s.ledger) && Enabled(p, s, step) && Stopped(s.ledger, target) && !Lifts(step, target)
    ensures Stopped(Apply(p, s, step).ledger, target)
  {
    match target
    case Address(email) => StepKeepsSound(p, s, step);
    case CampaignId(c) => CampaignStaysStopped(p, s, step, c);
  }

  /** A stopped target admits nobody through Phase 1, and an acceptance takes its worker off the way. */
  lemma WorkerUnderStop(p: Policy, s: Sys, step: Step, target: Target)
    requires Enabled(p, s, step) && Stopped(s.ledger, target) && ByWorker(step)
    ensures var x, y := s.workers[step.w], WorkerAfter(p, s, step);
            && (OnItsWay(y, target) ==> OnItsWay(x, target))
            && (step.CallPostal? && step.reply.Accept? && Aims(x.job, target) ==>
                 OnItsWay(x, target) && !OnItsWay(y, target))
  {
  }

  lemma AcceptancesAfter(p: Policy, s: Sys, step: Step, target: Target)
    requires Enabled(p, s, step)
    ensures AcceptedFor(Apply(p, s, step), target) ==
            AcceptedFor(s, target)
            + if step.CallPostal? && step.reply.Accept? && Aims(s.workers[step.w].job, target) then 1 else 0
  {
  }

  lemma StepUnderStop(p: Policy, s: Sys, step: Step, target: Target)
    requires Enabled(p, s, step) && Stopped(s.ledger, target)
    ensures var t := Apply(p, s, step);
            AcceptedFor(t, target) + |Underway(t, target)| <= AcceptedFor(s, target) + |Underway(s, target)|
  {
    var t := Apply(p, s, step);
    AcceptancesAfter(p, s, step, target);
    if ByWorker(step) {
      WorkerUnderStop(p, s, step, target);
      if step.CallPostal? && step.reply.Accept? && Aims(s.workers[step.w].job, target) {
        assert Underway(t, target) == Underway(s, target) - {step.w};
      } else {
        SubsetSize(Underway(t, target), Underway(s, target));
      }
    } else {
      assert t.workers == s.workers;
    }
  }

  /**
   Bounded staleness. Once an address is suppressed, or a campaign is neither sending nor scheduled, the later
   acceptances number at most the workers that were past Phase 1 and had not called Postal yet.
   */
  lemma {:induction false} StaleSendsBounded(p: Policy, s: Sys, steps: seq<Step>, target: Target)
    requires Sound(s.ledger) && Run(p, s, steps) && Stopped(s.ledger, target)
    requires forall i | 0 <= i < |steps| :: !Lifts(steps[i], target)
    ensures var t := Exec(p, s, steps);
            && Sound(t.ledger) && Stopped(t.ledger, target)
            && AcceptedFor(t, target) + |Underway(t, target)| <= AcceptedFor(s, target) + |Underway(s, target)|
  {
    if steps == [] {
    } else {
      var before, step := steps[..|steps| - 1], steps[|steps| - 1];
      StaleSendsBounded(p, s, before, target);
      StepKeepsSound(p, Exec(p, s, before), step);
      StepKeepsStopped(p, Exec(p, s, before), step, target);
      StepUnderStop(p, Exec(p, s, before), step, target);
    }
  }

  /** Phase 1 lets no row of that address through, in any campaign. */
  ghost predicate TurnedAway(l: Ledger, email: string) {
    forall q, cap, defers | q in l.rows && NormalizeEmail(l.rows[q].email) == NormalizeEmail(email) ::
      !Validate(l, q, cap, defers).Proceed?
  }

  /** From its bounce on, in every run, the address of a row is suppressed and no worker that enters sends to it. */
  lemma {:induction false} BouncedNeverSentAgain(p: Policy, s: Sys, steps: seq<Step>, r: int)
    requires Sound(s.ledger) && r in s.ledger.rows && s.ledger.rows[r].status == Bounced && Run(p, s, steps)
    ensures var l := Exec(p, s, steps).ledger;
            Sound(l) && IsSuppressed(l.suppressions, s.ledger.rows[r].email) && TurnedAway(l, s.ledger.rows[r].email)
  {
    RunKeepsSound(p, s, steps);
    assert RowSound(s.ledger, r);
  }

  // ----- Where an acceptance comes from -----

  /** Step `i` is the Phase 1 that gave worker `w` its job, on a sending campaign and a free address. */
  ghost predicate LetThrough(p: Policy, s: Sys, steps: seq<Step>, i: nat, w: int, row: int, since: int, job: Job)
    requires Run(p, s, steps)
  {
    && i < |steps| && steps[i].Phase1? && steps[i].w == w && Run(p, s, steps[..i])
    && Admits(Exec(p, s, steps[..i]), w, row, since, job)
  }

  ghost predicate Admits(t: Sys, w: int, row: int, since: int, job: Job) {
    && w in t.workers && t.workers[w] == Entering(row, since)
    && Sendable(t.ledger, row) && t.ledger.rows[row].email == job.email
    && t.ledger.rows[row].campaign == job.campaign && t.ledger.rows[row].contact == job.contact
    && t.ledger.campaigns[job.campaign].parent == job.freq
    && PoolFor(t.ledger.rows[row].pool, t.ledger.campaigns[job.campaign].pool, job.pool)
  }

  lemma GivenJob(p: Policy, s: Sys, step: Step)
    requires Enabled(p, s, step) && step.Phase1? && WorkerAfter(p, s, step).Working?
    ensures var y := WorkerAfter(p, s, step); Admits(s, step.w, y.row, y.since, y.job)
  {
  }

  lemma KeepsJob(p: Policy, s: Sys, step: Step, w: int)
    requires Enabled(p, s, step) && !(step.Phase1? && step.w == w)
    requires w in s.workers && Apply(p, s, step).workers[w].Working?
    ensures var x, y := s.workers[w], Apply(p, s, step).workers[w];
            x.Working? && x.row == y.row && x.since == y.since && x.job == y.job
  {
  }

  lemma {:induction false} RunHead(p: Policy, s: Sys, steps: seq<Step>, i: nat)
    requires Run(p, s, steps) && i <= |steps|
    ensures Run(p, s, steps[..i])
  {
    if i == |steps| {
      assert steps[..i] == steps;
    } else {
      assert steps[..|steps| - 1][..i] == steps[..i];
      RunHead(p, s, steps[..|steps| - 1], i);
    }
  }

  lemma {:induction false} LetThroughEarlier(p: Policy, s: Sys, steps: seq<Step>, i: nat, w: int, row: int, since: int,
                                             job: Job)
    requires steps != [] && Run(p, s, steps) && LetThrough(p, s, steps[..|steps| - 1], i, w, row, since, job)
    ensures LetThrough(p, s, steps, i, w, row, since, job)
  {
    assert steps[..|steps| - 1][..i] == steps[..i];
  }

  /** Every worker that may still send, or has sent, was let through by such a Phase 1 and carries that job since. */
  lemma {:induction false} EverySendWasLetThrough(p: Policy, s: Sys, steps: seq<Step>, w: int) returns (i: nat)
    requires Start(s) && Run(p, s, steps)
    requires w in Exec(p, s, steps).workers && Exec(p, s, steps).workers[w].Working?
    ensures var x := Exec(p, s, steps).workers[w]; LetThrough(p, s, steps, i, w, x.row, x.since, x.job)
  {
    var before, step := steps[..|steps| - 1], steps[|steps| - 1];
    var t := Exec(p, s, before);
    var x := Exec(p, s, steps).workers[w];
    WorkersStay(p, t, step);
    if step.Phase1? && step.w == w {
      GivenJob(p, t, step);
      i := |before|;
    } else {
      assert Exec(p, s, steps) == Apply(p, t, step);
      KeepsJob(p, t, step, w);
      i := EverySendWasLetThrough(p, s, before, w);
      LetThroughEarlier(p, s, steps, i, w, x.row, x.since, x.job);
    }
  }
}
