/**
 The send pipeline as a concurrent protocol. Every database transaction and every Redis command is one atomic
 step; workers, the scheduler, webhooks and the operators of the dashboard interleave freely.
 */
module Protocol {
  import opened Text
  import opened RecipientLedger
  import opened Webhook

  // Time is counted in microseconds.
  const LOCK_TTL: int := 180_000_000
  const DAY: int := 86_400_000_000

  function DayOf(t: int): int { t / DAY }

  /** Where a worker stands after Phase 1, named by what it does next. */
  datatype Stage =
    | Pace | PoolCap | WarmingCap | HardStop | Call
    | Rejected(detail: string) | Accepted(token: string) | CountPool | CountTotal

  /** `Leaving` is the `finally` clause of `send_one`: all that is left is to delete the lock. */
  datatype Worker =
    | Idle
    | Entering(row: int, since: int)
    | Working(row: int, since: int, job: Job, stage: Stage)
    | Leaving(row: int, since: int)

  /** `poolCap` is the configured daily cap per pool, `interval` the frequency interval. */
  datatype Policy = Policy(poolCap: int, interval: int)

  /**
   The shared state: database tables, Redis keys, the workers and the clock. The last four fields are history:
   the tokens Postal returned per row, its acceptances per address and per campaign, and the times recorded per
   recurring campaign and contact.
   */
  datatype Sys = Sys(ledger: Ledger, contacts: map<int, Contact>, lastSent: map<(int, int), int>,
                     locks: map<int, int>, poolSent: map<(string, int), int>, totalSent: map<int, int>,
                     workers: map<int, Worker>, now: int,
                     accepted: map<int, seq<string>>, acceptedTo: multiset<string>, acceptedFor: multiset<int>,
                     recorded: map<(int, int), seq<int>>)

  datatype Reply = Accept(token: string) | Transient | Permanent(detail: string)

  /** What a step learns from outside (query answers, Postal's reply, caps read from the settings) is in its label. */
  datatype Step =
    | Tick(until: int)
    | TakeLock(w: int, r: int)
    | Phase1(w: int, cap: int, defers: bool)
    | Acquire(w: int, allowed: bool)
    | CheckPoolCap(w: int)
    | CheckWarmingCap(w: int)
    | StopForCap(w: int)
    | CallPostal(w: int, reply: Reply)
    | RecordRejection(w: int)
    | RecordSend(w: int)
    | CountInPool(w: int)
    | CountInTotal(w: int)
    | ReleaseLock(w: int)
    | Crash(w: int, cleanup: bool)
    | Dispatch
    | Materialize(c: int, added: map<int, Row>)
    | Sweep(c: int)
    | Schedule(c: int, at: int, valid: bool)
    | Pause(c: int)
    | Resume(c: int)
    | Cancel(c: int)
    | Create(c: int, campaign: Campaign)
    | Edit(c: int, campaign: Campaign)
    | ChangeContacts(contacts: map<int, Contact>)
    | Receive(event: Event, hit: Option<int>)
    | SuppressAddress(email: string, why: Suppression)

  predicate At(s: Sys, w: int, stage: Stage) {
    w in s.workers && s.workers[w].Working? && s.workers[w].stage == stage
  }

  predicate Busy(s: Sys, w: int) {
    w in s.workers && !s.workers[w].Idle?
  }

  predicate Fresh(k: Campaign) {
    && k.status in {Draft, Scheduled, PlannerDefinition}
    && k.total == k.queued == k.sent == k.delivered == k.bounced == k.failed == k.skipped == k.carried == 0
  }

  /** An edit leaves status, parent and counters alone. */
  predicate SameBooks(a: Campaign, b: Campaign) {
    b == a.(pool := b.pool, lists := b.lists, template := b.template, scheduledAt := b.scheduledAt)
  }

  function Ineligible(p: Policy, s: Sys, c: int): set<int>
    requires c in s.ledger.campaigns
  {
    IneligibleContacts(s.lastSent, s.ledger.campaigns[c].parent, s.now, p.interval)
  }

  predicate IsSending(l: Ledger, c: int) {
    c in l.campaigns && l.campaigns[c].status == Sending
  }

  ghost predicate Enabled(p: Policy, s: Sys, step: Step) {
    match step
    case Tick(until) => s.now <= until
    case TakeLock(w, r) => w in s.workers && s.workers[w].Idle?
    case Phase1(w, cap, defers) => w in s.workers && s.workers[w].Entering?
    case Acquire(w, allowed) => At(s, w, Pace)
    case CheckPoolCap(w) => At(s, w, PoolCap)
    case CheckWarmingCap(w) => At(s, w, WarmingCap)
    case StopForCap(w) => At(s, w, HardStop)
    case CallPostal(w, reply) => At(s, w, Call)
    case RecordRejection(w) => w in s.workers && s.workers[w].Working? && s.workers[w].stage.Rejected?
    case RecordSend(w) => w in s.workers && s.workers[w].Working? && s.workers[w].stage.Accepted?
    case CountInPool(w) => At(s, w, CountPool)
    case CountInTotal(w) => At(s, w, CountTotal)
    case ReleaseLock(w) => w in s.workers && s.workers[w].Leaving?
    case Crash(w, cleanup) => Busy(s, w)
    case Materialize(c, added) =>
      IsSending(s.ledger, c) ==> Snapshot(s.ledger, s.contacts, Ineligible(p, s, c), c, added)
    case Create(c, campaign) => c !in s.ledger.campaigns && Fresh(campaign)
    case Edit(c, campaign) =>
      && c in s.ledger.campaigns && s.ledger.campaigns[c].status in {Draft, Scheduled, PlannerDefinition}
      && SameBooks(s.ledger.campaigns[c], campaign)
    case Receive(event, hit) => LawfulHit(s.ledger, event, hit)
    case _ => true
  }

  function Leave(x: Worker): Worker
    requires !x.Idle?
  {
    Leaving(x.row, x.since)
  }

  function PoolUsed(s: Sys, pool: string, day: int): int {
    if (pool, day) in s.poolSent then s.poolSent[(pool, day)] else 0
  }

  function TotalUsed(s: Sys, day: int): int {
    if day in s.totalSent then s.totalSent[day] else 0
  }

  /** The tokens Postal has returned for a row, in order. */
  function Tokens(s: Sys, r: int): seq<string> {
    if r in s.accepted then s.accepted[r] else []
  }

  function RecordedTimes(s: Sys, key: (int, int)): seq<int> {
    if key in s.recorded then s.recorded[key] else []
  }

  function AddressOf(email: string): multiset<string> {
    var n := NormalizeEmail(email);
    if n.Some? then multiset{n.value} else multiset{}
  }

  function DispatchDue(l: Ledger, now: int): Ledger {
    l.(campaigns := map c | c in l.campaigns ::
         var k := l.campaigns[c];
         if k.status == Scheduled && k.scheduledAt.Some? && k.scheduledAt.value <= now
         then k.(status := Sending) else k)
  }

  function PauseCampaign(l: Ledger, c: int): Ledger {
    if c in l.campaigns && l.campaigns[c].status in {Sending, Scheduled} then SetStatus(l, c, Paused) else l
  }

  function ResumeCampaign(l: Ledger, c: int): Ledger {
    if c in l.campaigns && l.campaigns[c].status == Paused then SetStatus(l, c, Sending) else l
  }

  function CancelCampaign(l: Ledger, c: int): Ledger {
    if c in l.campaigns && l.campaigns[c].status !in {Completed, Cancelled} then SetStatus(l, c, Cancelled) else l
  }

  /** `schedule` checks the campaign's contents (`valid`) but not its status. */
  function ScheduleCampaign(l: Ledger, c: int, at: int, valid: bool): Ledger {
    if valid && c in l.campaigns
    then l.(campaigns := l.campaigns[c := l.campaigns[c].(status := Scheduled, scheduledAt := Some(at))])
    else l
  }

  function MaterializeCampaign(l: Ledger, c: int, added: map<int, Row>): Ledger {
    if !IsSending(l, c) then l
    else if l.campaigns[c].lists == {} then SetStatus(l, c, CampaignFailed)
    else AddRows(l, c, added)
  }

  /** The ledger after a step: the database transaction the step commits, if it commits one. */
  ghost function LedgerAfter(p: Policy, s: Sys, step: Step): Ledger
    requires Enabled(p, s, step)
  {
    var l := s.ledger;
    match step
    case Phase1(w, cap, defers) => AfterPhase1(l, s.workers[w].row, Validate(l, s.workers[w].row, cap, defers))
    case StopForCap(w) => SkipForCap(l, s.workers[w].row)
    case RecordRejection(w) => FailPermanently(l, s.workers[w].row, s.workers[w].stage.detail)
    case RecordSend(w) => CommitSend(l, s.workers[w].row, s.workers[w].job.pool, s.workers[w].stage.token)
    case Dispatch => DispatchDue(l, s.now)
    case Materialize(c, added) => MaterializeCampaign(l, c, added)
    case Sweep(c) => MaybeFinalize(l, c)
    case Schedule(c, at, valid) => ScheduleCampaign(l, c, at, valid)
    case Pause(c) => PauseCampaign(l, c)
    case Resume(c) => ResumeCampaign(l, c)
    case Cancel(c) => CancelCampaign(l, c)
    case Create(c, campaign) => l.(campaigns := l.campaigns[c := campaign])
    case Edit(c, campaign) => l.(campaigns := l.campaigns[c := campaign])
    case Receive(event, hit) => Reconcile(l, event, hit)
    case SuppressAddress(email, why) => l.(suppressions := Suppress(l.suppressions, email, why))
    case _ => l
  }

  /** `SET key NX EX 180` fails while the key lives. */
  predicate Held(s: Sys, r: int) {
    r in s.locks && s.now < s.locks[r]
  }

  predicate ByWorker(step: Step) {
    step.TakeLock? || step.Phase1? || step.Acquire? || step.CheckPoolCap? || step.CheckWarmingCap? || step.StopForCap?
    || step.CallPostal? || step.RecordRejection? || step.RecordSend? || step.CountInPool? || step.CountInTotal?
    || step.ReleaseLock? || step.Crash?
  }

  /** Where the worker that takes the step stands afterwards. */
  ghost function WorkerAfter(p: Policy, s: Sys, step: Step): Worker
    requires Enabled(p, s, step) && ByWorker(step)
  {
    var x := s.workers[step.w];
    match step
    case TakeLock(_, r) => if Held(s, r) then Idle else Entering(r, s.now)
    case Phase1(_, cap, defers) =>
      var d := Validate(s.ledger, x.row, cap, defers);
      if d.Proceed? then Working(x.row, x.since, d.job, Pace) else Leave(x)
    case Acquire(_, allowed) => if allowed then x.(stage := PoolCap) else Leave(x)
    case CheckPoolCap(_) =>
      if PoolUsed(s, x.job.pool, DayOf(s.now)) >= p.poolCap then Leave(x) else x.(stage := WarmingCap)
    case CheckWarmingCap(_) =>
      if TotalUsed(s, DayOf(s.now)) < x.job.cap then x.(stage := Call)
      else if x.job.defers then Leave(x)
      else x.(stage := HardStop)
    case StopForCap(_) => Leave(x)
    case CallPostal(_, Accept(token)) => x.(stage := Accepted(token))
    case CallPostal(_, Permanent(detail)) => x.(stage := Rejected(detail))
    case CallPostal(_, Transient) => Leave(x)
    case RecordRejection(_) => Leave(x)
    case RecordSend(_) => if x.row in s.ledger.rows then x.(stage := CountPool) else Leave(x)
    case CountInPool(_) => x.(stage := CountTotal)
    case CountInTotal(_) => Leave(x)
    case ReleaseLock(_) => Idle
    case Crash(_, cleanup) => if cleanup then Leave(x) else Idle
    case _ => Idle
  }

  /** The send Phase 4 records for the frequency rule, as (recurring campaign, contact). */
  function SendRecorded(l: Ledger, x: Worker): Option<(int, int)>
    requires x.Working?
  {
    if StillPending(l, x.row) && x.job.freq.Some? then Some((x.job.freq.value, x.job.contact)) else None
  }

  /** The shared state beside the ledger: contacts, frequency log, Redis keys, clock and history. */
  ghost function SharedAfter(p: Policy, s: Sys, step: Step): Sys
    requires Enabled(p, s, step)
  {
    match step
    case Tick(until) => s.(now := until)
    case TakeLock(w, r) => if Held(s, r) then s else s.(locks := s.locks[r := s.now + LOCK_TTL])
    case CallPostal(w, Accept(token)) =>
      var x := s.workers[w];
      s.(accepted := s.accepted[x.row := Tokens(s, x.row) + [token]],
         acceptedTo := s.acceptedTo + AddressOf(x.job.email),
         acceptedFor := s.acceptedFor + multiset{x.job.campaign})
    case RecordSend(w) =>
      var key := SendRecorded(s.ledger, s.workers[w]);
      if key.None? then s
      else s.(lastSent := s.lastSent[key.value := s.now],
              recorded := s.recorded[key.value := RecordedTimes(s, key.value) + [s.now]])
    case CountInPool(w) =>
      var key := (s.workers[w].job.pool, DayOf(s.now));
      s.(poolSent := s.poolSent[key := PoolUsed(s, key.0, key.1) + 1])
    case CountInTotal(w) => s.(totalSent := s.totalSent[DayOf(s.now) := TotalUsed(s, DayOf(s.now)) + 1])
    case ReleaseLock(w) => s.(locks := s.locks - {s.workers[w].row})
    case ChangeContacts(contacts) => s.(contacts := contacts)
    case Receive(event, hit) => s.(contacts := ContactsAfter(s.ledger, s.contacts, event, hit))
    case SuppressAddress(email, why) => s.(contacts := MarkContact(s.contacts, email, why.reason))
    case _ => s
  }

  ghost function Apply(p: Policy, s: Sys, step: Step): Sys
    requires Enabled(p, s, step)
  {
    SharedAfter(p, s, step).(
      ledger := LedgerAfter(p, s, step),
      workers := if ByWorker(step) then s.workers[step.w := WorkerAfter(p, s, step)] else s.workers)
  }

  // ----- Runs -----

  /** An installation before its first campaign; contacts and suppressions may be there already. */
  ghost predicate Start(s: Sys) {
    && s.ledger.rows == map[] && s.ledger.campaigns == map[] && s.ledger.log == []
    && s.lastSent == map[] && s.locks == map[] && s.poolSent == map[] && s.totalSent == map[]
    && (forall w | w in s.workers :: s.workers[w].Idle?)
    && s.accepted == map[] && s.acceptedTo == multiset{} && s.acceptedFor == multiset{} && s.recorded == map[]
  }

  ghost predicate Run(p: Policy, s: Sys, steps: seq<Step>)
    decreases |steps|, 0
  {
    steps == [] || (Run(p, s, steps[..|steps| - 1]) && Enabled(p, Exec(p, s, steps[..|steps| - 1]), steps[|steps| - 1]))
  }

  ghost function Exec(p: Policy, s: Sys, steps: seq<Step>): Sys
    requires Run(p, s, steps)
    decreases |steps|, 1
  {
    if steps == [] then s else Apply(p, Exec(p, s, steps[..|steps| - 1]), steps[|steps| - 1])
  }

  lemma RunExtends(p: Policy, s: Sys, steps: seq<Step>, step: Step)
    requires Run(p, s, steps) && Enabled(p, Exec(p, s, steps), step)
    ensures Run(p, s, steps + [step]) && Exec(p, s, steps + [step]) == Apply(p, Exec(p, s, steps), step)
  {
    assert (steps + [step])[..|steps + [step]| - 1] == steps;
  }

  // ----- What the transactions of a worker have in common -----

  /** A pending row is finished under the counter `which`, and only a sent row gets a token. */
  ghost predicate Finishes(a: Row, b: Row, which: Counter) {
    && a.status == Pending && b == a.(status := b.status, token := b.token, pool := b.pool, error := b.error)
    && match which
       case SentCount => b.status == Sent
       case FailedCount => b.status == Failed && b.token == a.token && b.pool == a.pool
       case SkippedCount => b.status in SKIPPED && b.token == a.token && b.pool == a.pool
       case _ => false
  }

  ghost predicate Settles(l: Ledger, m: Ledger, r: int, sends: bool) {
    r in l.rows && exists row, which ::
      Finishes(l.rows[r], row, which) && (which.SentCount? ==> sends) && m == Resolve(l, r, row, which)
  }

  lemma SettlesWith(l: Ledger, r: int, row: Row, which: Counter)
    requires r in l.rows && Finishes(l.rows[r], row, which)
    ensures Settles(l, Resolve(l, r, row, which), r, which.SentCount?)
  {
  }

  /** A worker's transaction settles its own row, as sent only in Phase 4, or leaves the ledger as it is. */
  lemma WorkerSettles(p: Policy, s: Sys, step: Step)
    requires Enabled(p, s, step) && ByWorker(step)
    ensures var l, m, x := s.ledger, LedgerAfter(p, s, step), s.workers[step.w];
            m == l || (!x.Idle? && Settles(l, m, x.row, step.RecordSend?))
  {
    var l := s.ledger;
    match step
    case Phase1(w, cap, defers) =>
      var r := s.workers[w].row;
      if r in l.rows && l.rows[r].status == Pending {
        SettlesWith(l, r, l.rows[r].(status := SkippedSuppressed), SkippedCount);
        SettlesWith(l, r, l.rows[r].(status := Failed, error := Some("campaign has no template")), FailedCount);
      }
    case StopForCap(w) =>
      var r := s.workers[w].row;
      if StillPending(l, r) { SettlesWith(l, r, l.rows[r].(status := SkippedCap), SkippedCount); }
    case RecordRejection(w) =>
      var r, detail := s.workers[w].row, s.workers[w].stage.detail;
      if StillPending(l, r) {
        SettlesWith(l, r, l.rows[r].(status := Failed, error := Some("permanent: " + detail)), FailedCount);
      }
    case RecordSend(w) =>
      var r, job := s.workers[w].row, s.workers[w].job;
      if StillPending(l, r) {
        SettlesWith(l, r, l.rows[r].(status := Sent, token := Some(s.workers[w].stage.token), pool := Some(job.pool)),
                    SentCount);
      }
    case _ =>
  }

  /** Settling a row rewrites no other row, and of the campaigns only counters, and statuses to completed. */
  lemma SettlingTouches(l: Ledger, m: Ledger, r: int, sends: bool)
    requires Settles(l, m, r, sends)
    ensures m.rows.Keys == l.rows.Keys && (forall q | q in l.rows && q != r :: m.rows[q] == l.rows[q])
    ensures StillPending(l, r) && (!sends ==> m.rows[r].token == l.rows[r].token && m.rows[r].pool == l.rows[r].pool)
    ensures m.suppressions == l.suppressions && m.log == l.log && m.campaigns.Keys == l.campaigns.Keys
    ensures forall c | c in l.campaigns :: m.campaigns[c].carried == l.campaigns[c].carried
    ensures forall c | c in l.campaigns ::
              || m.campaigns[c].status == l.campaigns[c].status
              || (l.campaigns[c].status == Sending && m.campaigns[c].status == Completed)
  {
  }

  // ----- The ledger over whole runs -----

  lemma CampaignsChangeKeepsSound(l: Ledger, m: Ledger)
    requires Sound(l) && m == l.(campaigns := m.campaigns)
    requires forall c | c in l.campaigns ::
               c in m.campaigns && SameBooks(l.campaigns[c].(status := m.campaigns[c].status), m.campaigns[c])
    requires forall c | c in l.campaigns && m.campaigns[c].status == Completed :: Count(l.rows, c, {Pending}) == 0
    requires forall c | c in m.campaigns && c !in l.campaigns :: Fresh(m.campaigns[c])
    ensures Sound(m) && Evolves(l, m)
  {
    forall q | q in m.rows ensures RowSound(m, q) { assert RowSound(l, q); }
    forall c | c in m.campaigns ensures CampaignSound(m, c) {
      if c in l.campaigns {
        assert CampaignSound(l, c);
      } else {
        assert forall r | r in l.rows :: RowSound(l, r);
        forall ss: set<RowStatus> ensures Count(m.rows, c, ss) == 0 { NoneIn(m.rows, c, ss); }
      }
    }
  }

  ghost predicate Keeps(l: Ledger, m: Ledger) {
    Sound(m) && Evolves(l, m)
  }

  lemma {:induction false} OperatorKeepsSound(l: Ledger, c: int)
    requires Sound(l)
    ensures Keeps(l, PauseCampaign(l, c)) && Keeps(l, ResumeCampaign(l, c)) && Keeps(l, CancelCampaign(l, c))
  {
    if c in l.campaigns {
      StatusChangeKeepsSound(l, c, Paused);
      StatusChangeKeepsSound(l, c, Sending);
      StatusChangeKeepsSound(l, c, Cancelled);
    }
  }

  lemma ScheduleKeepsSound(l: Ledger, c: int, at: int, valid: bool)
    requires Sound(l)
    ensures Keeps(l, ScheduleCampaign(l, c, at, valid))
  {
    assert forall d | d in l.campaigns :: CampaignSound(l, d);
    CampaignsChangeKeepsSound(l, ScheduleCampaign(l, c, at, valid));
  }

  lemma DispatchKeepsSound(l: Ledger, now: int)
    requires Sound(l)
    ensures Keeps(l, DispatchDue(l, now))
  {
    assert forall d | d in l.campaigns :: CampaignSound(l, d);
    CampaignsChangeKeepsSound(l, DispatchDue(l, now));
  }

  lemma SweepKeepsSound(l: Ledger, c: int)
    requires Sound(l)
    ensures Keeps(l, MaybeFinalize(l, c))
  {
    if MaybeFinalize(l, c) != l { StatusChangeKeepsSound(l, c, Completed); }
  }

  lemma WriteCampaignKeepsSound(l: Ledger, c: int, k: Campaign)
    requires Sound(l)
    requires if c in l.campaigns then SameBooks(l.campaigns[c], k) else Fresh(k)
    ensures Keeps(l, l.(campaigns := l.campaigns[c := k]))
  {
    assert forall d | d in l.campaigns :: CampaignSound(l, d);
    CampaignsChangeKeepsSound(l, l.(campaigns := l.campaigns[c := k]));
  }

  lemma MaterializeKeepsSound(l: Ledger, contacts: map<int, Contact>, ineligible: set<int>, c: int,
                              added: map<int, Row>)
    requires Sound(l)
    requires IsSending(l, c) ==> Snapshot(l, contacts, ineligible, c, added)
    ensures Keeps(l, MaterializeCampaign(l, c, added))
  {
    if IsSending(l, c) {
      if l.campaigns[c].lists == {} {
        StatusChangeKeepsSound(l, c, CampaignFailed);
      } else {
        AddRowsKeepsSound(l, contacts, ineligible, c, added);
      }
    }
  }

  lemma {:induction false} Phase1KeepsSound(l: Ledger, r: int, cap: int, defers: bool)
    requires Sound(l)
    ensures Keeps(l, AfterPhase1(l, r, Validate(l, r, cap, defers)))
  {
    var d := Validate(l, r, cap, defers);
    if d.SuppressedNow? {
      assert RowSound(l, r);
      ResolveKeepsSound(l, r, l.rows[r].(status := SkippedSuppressed), SkippedCount);
    } else if d.NoTemplate? {
      assert RowSound(l, r);
      ResolveKeepsSound(l, r, l.rows[r].(status := Failed, error := Some("campaign has no template")), FailedCount);
    }
  }

  lemma SettlingKeepsSound(l: Ledger, r: int, pool: string, text: string)
    requires Sound(l)
    ensures Keeps(l, SkipForCap(l, r)) && Keeps(l, FailPermanently(l, r, text))
    ensures Keeps(l, CommitSend(l, r, pool, text))
  {
    if StillPending(l, r) {
      assert RowSound(l, r);
      ResolveKeepsSound(l, r, l.rows[r].(status := SkippedCap), SkippedCount);
      ResolveKeepsSound(l, r, l.rows[r].(status := Failed, error := Some("permanent: " + text)), FailedCount);
      ResolveKeepsSound(l, r, l.rows[r].(status := Sent, token := Some(text), pool := Some(pool)), SentCount);
    }
  }

  /** Every step, of any worker or of the environment, keeps the ledger sound and only moves rows forward. */
  lemma {:induction false} StepKeepsSound(p: Policy, s: Sys, step: Step)
    requires Sound(s.ledger) && Enabled(p, s, step)
    ensures Keeps(s.ledger, Apply(p, s, step).ledger)
  {
    var l := s.ledger;
    assert Keeps(l, LedgerAfter(p, s, step)) by {
      match step
      case Phase1(w, cap, defers) => Phase1KeepsSound(l, s.workers[w].row, cap, defers);
      case StopForCap(w) => SettlingKeepsSound(l, s.workers[w].row, "", "");
      case RecordRejection(w) => SettlingKeepsSound(l, s.workers[w].row, "", s.workers[w].stage.detail);
      case RecordSend(w) => SettlingKeepsSound(l, s.workers[w].row, s.workers[w].job.pool, s.workers[w].stage.token);
      case Materialize(c, added) =>
        MaterializeKeepsSound(l, s.contacts, if IsSending(l, c) then Ineligible(p, s, c) else {}, c, added);
      case Receive(event, hit) => ReconcileKeepsSound(l, event, hit);
      case SuppressAddress(email, why) => SuppressionKeepsSound(l, LedgerAfter(p, s, step));
      case Dispatch => DispatchKeepsSound(l, s.now);
      case Sweep(c) => SweepKeepsSound(l, c);
      case Schedule(c, at, valid) => ScheduleKeepsSound(l, c, at, valid);
      case Pause(c) => OperatorKeepsSound(l, c);
      case Resume(c) => OperatorKeepsSound(l, c);
      case Cancel(c) => OperatorKeepsSound(l, c);
      case Create(c, campaign) => WriteCampaignKeepsSound(l, c, campaign);
      case Edit(c, campaign) => WriteCampaignKeepsSound(l, c, campaign);
      case _ =>
    }
  }

  /** In every reachable state the counters balance, COMPLETED means nothing is pending, and rows only move forward. */
  lemma {:induction false} RunKeepsSound(p: Policy, s: Sys, steps: seq<Step>)
    requires Sound(s.ledger) && Run(p, s, steps)
    ensures Sound(Exec(p, s, steps).ledger) && Evolves(s.ledger, Exec(p, s, steps).ledger)
  {
    if steps == [] {
    } else {
      var before := Exec(p, s, steps[..|steps| - 1]);
      RunKeepsSound(p, s, steps[..|steps| - 1]);
      StepKeepsSound(p, before, steps[|steps| - 1]);
      EvolvesTransitive(s.ledger, before.ledger, Exec(p, s, steps).ledger);
    }
  }

  /** A logged event stays without effect, whatever else happens in the meantime. */
  lemma {:induction false} LoggedForever(p: Policy, s: Sys, steps: seq<Step>, e: Event, hit: Option<int>)
    requires Sound(s.ledger) && Run(p, s, steps) && IsDuplicate(s.ledger, e)
    requires LawfulHit(Exec(p, s, steps).ledger, e, hit)
    ensures var t := Exec(p, s, steps);
            Reconcile(t.ledger, e, hit) == t.ledger && ContactsAfter(t.ledger, t.contacts, e, hit) == t.contacts
  {
    RunKeepsSound(p, s, steps);
    DuplicateStays(s.ledger, Exec(p, s, steps).ledger, e);
  }

  /**
   Redelivery over runs of the protocol. An event is received, anything happens, and a copy arrives: it leaves the
   ledger alone if and only if the event is logged or its message is still nobody's. So the one copy that acts is that
   of an event which overtook the commit of its own message.
   */
  lemma {:induction false} CopyActsWhen(p: Policy, s: Sys, e: Event, first: Option<int>, s1: Sys, steps: seq<Step>,
                                        hit: Option<int>)
    requires Sound(s.ledger) && Truthy(e.uuid)
    requires Enabled(p, s, Receive(e, first)) && s1 == Apply(p, s, Receive(e, first))
    requires Run(p, s1, steps) && LawfulHit(Exec(p, s1, steps).ledger, e, hit)
    ensures var t := Exec(p, s1, steps).ledger;
            && Sound(t)
            && (Reconcile(t, e, hit) == t <==> hit.None? || IsDuplicate(t, e))
            && (first.Some? ==> IsDuplicate(t, e))
  {
    var t := Exec(p, s1, steps).ledger;
    StepKeepsSound(p, s, Receive(e, first));
    RunKeepsSound(p, s1, steps);
    ReceivedIsAbsorbed(s.ledger, e, first);
    CopyMeets(s1.ledger, t, e, hit);
    DuplicateStays(s1.ledger, t, e);
  }

  lemma ReceivedIsAbsorbed(l: Ledger, e: Event, hit: Option<int>)
    requires Truthy(e.uuid) && LawfulHit(l, e, hit)
    ensures Absorbed(Reconcile(l, e, hit), e) && (hit.Some? ==> IsDuplicate(Reconcile(l, e, hit), e))
  {
    AppliedIsAbsorbed(l, e, hit);
    if hit.Some? && !IsDuplicate(l, e) {
      var m := Reconcile(l, e, hit);
      assert m.log[|l.log|].uuid == e.uuid;
    }
  }

  /** A copy meets a ledger that has evolved since the event was absorbed. */
  lemma CopyMeets(l: Ledger, t: Ledger, e: Event, hit: Option<int>)
    requires Absorbed(l, e) && Evolves(l, t) && LawfulHit(t, e, hit)
    ensures Reconcile(t, e, hit) == t <==> hit.None? || IsDuplicate(t, e)
  {
    DuplicateStays(l, t, e);
    if hit.Some? && !IsDuplicate(t, e) { assert |Reconcile(t, e, hit).log| == |t.log| + 1; }
  }
}
