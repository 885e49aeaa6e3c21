/** At most one acceptance by Postal per ledger row, in every orderly interleaving. */
module AtMostOnce {
  import opened Text
  import opened RecipientLedger
  import opened Webhook
  import opened Protocol

  // ----- The assumption: nobody outlives the lock, nobody dies between acceptance and commit -----

  /** The row is there and no longer pending; Phase 1 turns every task for it away. */
  predicate Settled(l: Ledger, r: int) {
    r in l.rows && l.rows[r].status != Pending
  }

  /** A worker whose row somebody could still send. */
  predicate Matters(s: Sys, w: int) {
    Busy(s, w) && !Settled(s.ledger, s.workers[w].row)
  }

  /** Every worker in the middle of `send_one` is within the lifetime of its lock, unless its row is settled. */
  ghost predicate OnTime(s: Sys) {
    forall w | Matters(s, w) :: s.now < s.workers[w].since + LOCK_TTL
  }

  ghost predicate Orderly(s: Sys, step: Step) {
    match step
    case Tick(until) => OnTime(s.(now := until))
    case Crash(w, cleanup) => !(w in s.workers && s.workers[w].Working? && s.workers[w].stage.Accepted?)
    case _ => true
  }

  ghost predicate OrderlyRun(p: Policy, s: Sys, steps: seq<Step>)
    requires Run(p, s, steps)
  {
    steps == [] ||
    (OrderlyRun(p, s, steps[..|steps| - 1]) && Orderly(Exec(p, s, steps[..|steps| - 1]), steps[|steps| - 1]))
  }

  // ----- The lock -----

  /** The lock excludes: while a row is not settled, a worker's lock on it is its own, and no two workers share it. */
  ghost predicate Exclusive(s: Sys) {
    && OnTime(s)
    && (forall w | Matters(s, w) ::
         s.workers[w].row in s.locks && s.locks[s.workers[w].row] == s.workers[w].since + LOCK_TTL)
    && (forall w, v | Matters(s, w) && Matters(s, v) && s.workers[w].row == s.workers[v].row :: w == v)
  }

  /** Apart from taking a lock and letting go, a worker keeps its row and the time it took the lock. */
  lemma WorkerKeepsRow(p: Policy, s: Sys, step: Step)
    requires Enabled(p, s, step) && ByWorker(step) && !step.TakeLock?
    ensures var x, y := s.workers[step.w], WorkerAfter(p, s, step);
            && !x.Idle? && (!y.Idle? ==> y.row == x.row && y.since == x.since)
            && (step.ReleaseLock? ==> y.Idle?)
  {
  }

  /** Nobody took a lock, and the locks that went were those of settled rows or of workers that are done. */
  ghost predicate FewerHolders(s: Sys, t: Sys) {
    forall v | Busy(t, v) ::
      && Busy(s, v) && t.workers[v].row == s.workers[v].row && t.workers[v].since == s.workers[v].since
      && (Matters(s, v) && s.workers[v].row in s.locks ==>
            s.workers[v].row in t.locks && t.locks[s.workers[v].row] == s.locks[s.workers[v].row])
  }

  lemma FewerHoldersExclusive(s: Sys, t: Sys)
    requires Exclusive(s) && FewerHolders(s, t) && Evolves(s.ledger, t.ledger)
    requires t.now == s.now || OnTime(t)
    ensures Exclusive(t)
  {
    forall v | Matters(t, v) ensures Matters(s, v) {}
  }

  lemma NewHolder(s: Sys, t: Sys, w: int, r: int)
    requires Exclusive(s) && !Held(s, r) && w in s.workers && s.workers[w].Idle? && t.now == s.now
    requires t.locks == s.locks[r := s.now + LOCK_TTL] && t.workers == s.workers[w := Entering(r, s.now)]
    requires t.ledger == s.ledger
    ensures Exclusive(t)
  {
    forall v | Matters(s, v) ensures s.workers[v].row != r {}
  }

  lemma TakingKeepsExclusive(p: Policy, s: Sys, w: int, r: int)
    requires Exclusive(s) && Enabled(p, s, TakeLock(w, r))
    ensures Exclusive(Apply(p, s, TakeLock(w, r)))
  {
    if Held(s, r) {
      assert Apply(p, s, TakeLock(w, r)) == s;
    } else {
      NewHolder(s, Apply(p, s, TakeLock(w, r)), w, r);
    }
  }

  lemma ReleaseShrinks(p: Policy, s: Sys, w: int)
    requires Exclusive(s) && Enabled(p, s, ReleaseLock(w))
    ensures FewerHolders(s, Apply(p, s, ReleaseLock(w)))
  {
    var t := Apply(p, s, ReleaseLock(w));
    assert t.locks == s.locks - {s.workers[w].row} && t.workers == s.workers[w := Idle];
    assert Busy(s, w);
    forall v | Busy(t, v) ensures Busy(s, v) && (Matters(s, v) ==> s.workers[v].row != s.workers[w].row) {}
  }

  lemma WorkFrame(p: Policy, s: Sys, step: Step)
    requires Enabled(p, s, step) && ByWorker(step) && !step.TakeLock? && !step.ReleaseLock?
    ensures var t := Apply(p, s, step);
            t.workers == s.workers[step.w := WorkerAfter(p, s, step)] && t.locks == s.locks && t.now == s.now
  {
  }

  lemma OneMoves(s: Sys, t: Sys, w: int, y: Worker)
    requires Busy(s, w) && t.workers == s.workers[w := y] && t.locks == s.locks
    requires !y.Idle? ==> y.row == s.workers[w].row && y.since == s.workers[w].since
    ensures FewerHolders(s, t)
  {
    forall v | Busy(t, v)
      ensures Busy(s, v) && t.workers[v].row == s.workers[v].row && t.workers[v].since == s.workers[v].since
    {
    }
  }

  lemma WorkShrinks(p: Policy, s: Sys, step: Step)
    requires Enabled(p, s, step) && ByWorker(step) && !step.TakeLock? && !step.ReleaseLock?
    ensures FewerHolders(s, Apply(p, s, step)) && Apply(p, s, step).now == s.now
  {
    WorkFrame(p, s, step);
    WorkerKeepsRow(p, s, step);
    OneMoves(s, Apply(p, s, step), step.w, WorkerAfter(p, s, step));
  }

  lemma EnvironmentShrinks(p: Policy, s: Sys, step: Step)
    requires Enabled(p, s, step) && !ByWorker(step)
    ensures FewerHolders(s, Apply(p, s, step))
    ensures step.Tick? || Apply(p, s, step).now == s.now
    ensures step.Tick? ==> Apply(p, s, step) == s.(now := step.until)
  {
    var t := Apply(p, s, step);
    assert t.workers == s.workers && t.locks == s.locks;
  }

  lemma {:induction false} StepKeepsExclusive(p: Policy, s: Sys, step: Step)
    requires Sound(s.ledger) && Exclusive(s) && Enabled(p, s, step) && Orderly(s, step)
    ensures Exclusive(Apply(p, s, step))
  {
    StepKeepsSound(p, s, step);
    if step.TakeLock? {
      TakingKeepsExclusive(p, s, step.w, step.r);
    } else if step.ReleaseLock? {
      ReleaseShrinks(p, s, step.w);
      FewerHoldersExclusive(s, Apply(p, s, step));
    } else if ByWorker(step) {
      WorkShrinks(p, s, step);
      FewerHoldersExclusive(s, Apply(p, s, step));
    } else {
      EnvironmentShrinks(p, s, step);
      FewerHoldersExclusive(s, Apply(p, s, step));
    }
  }

  // ----- What the ledger knows about acceptances -----

  function TokenOf(l: Ledger, r: int): seq<string> {
    if r in l.rows && l.rows[r].token.Some? then [l.rows[r].token.value] else []
  }

  /** Past Phase 1 and before the transaction that resolves the row. */
  predicate Unresolved(x: Worker) {
    x.Working? && !x.stage.CountPool? && !x.stage.CountTotal?
  }

  predicate HasReply(x: Worker) {
    x.Working? && x.stage.Accepted?
  }

  /** Some worker carries Postal's answer for the row and has not committed it yet. */
  ghost predicate InDoubt(s: Sys, r: int) {
    exists w :: w in s.workers && HasReply(s.workers[w]) && s.workers[w].row == r
  }

  ghost predicate Accounted(s: Sys) {
    && (forall w | w in s.workers && Unresolved(s.workers[w]) :: StillPending(s.ledger, s.workers[w].row))
    && (forall w | w in s.workers && HasReply(s.workers[w]) ::
         Tokens(s, s.workers[w].row) == [s.workers[w].stage.token])
    && (forall r :: !InDoubt(s, r) ==> Tokens(s, r) == TokenOf(s.ledger, r))
  }

  /** Steps of the environment neither resolve a pending row nor touch a token. */
  lemma EnvironmentLeavesRows(p: Policy, s: Sys, step: Step, r: int)
    requires Sound(s.ledger) && Enabled(p, s, step) && !ByWorker(step)
    ensures TokenOf(LedgerAfter(p, s, step), r) == TokenOf(s.ledger, r)
    ensures StillPending(s.ledger, r) ==> StillPending(LedgerAfter(p, s, step), r)
  {
    match step
    case Receive(event, hit) =>
      if r in s.ledger.rows {
        OnlyAcceptedRowsMove(s.ledger, event, hit, r);
        ReceiveKeepsToken(s.ledger, event, hit, r);
      }
    case Materialize(c, added) =>
    case _ =>
  }

  lemma ReceiveKeepsToken(l: Ledger, e: Event, hit: Option<int>, r: int)
    requires LawfulHit(l, e, hit) && r in l.rows
    ensures r in Reconcile(l, e, hit).rows && Reconcile(l, e, hit).rows[r].token == l.rows[r].token
  {
    ReconcileGrows(l, e, hit);
  }

  /** A worker's transaction rewrites its own row only, and only Phase 4 gives it a token. */
  lemma WorkerLeavesOtherRows(p: Policy, s: Sys, step: Step, r: int)
    requires Sound(s.ledger) && Enabled(p, s, step) && ByWorker(step)
    requires Busy(s, step.w) ==> s.workers[step.w].row != r || !step.RecordSend?
    ensures TokenOf(LedgerAfter(p, s, step), r) == TokenOf(s.ledger, r)
    ensures StillPending(s.ledger, r) && (Busy(s, step.w) ==> s.workers[step.w].row != r) ==>
              StillPending(LedgerAfter(p, s, step), r)
  {
    WorkerSettles(p, s, step);
    if LedgerAfter(p, s, step) != s.ledger {
      SettlingTouches(s.ledger, LedgerAfter(p, s, step), s.workers[step.w].row, step.RecordSend?);
    }
  }

  lemma EnvironmentKeepsAccounted(p: Policy, s: Sys, step: Step)
    requires Sound(s.ledger) && Accounted(s) && Enabled(p, s, step) && !ByWorker(step)
    ensures Accounted(Apply(p, s, step))
  {
    var t := Apply(p, s, step);
    assert t.workers == s.workers && t.accepted == s.accepted;
    forall w | w in t.workers && Unresolved(t.workers[w]) ensures StillPending(t.ledger, t.workers[w].row) {
      EnvironmentLeavesRows(p, s, step, t.workers[w].row);
    }
    forall r | !InDoubt(t, r) ensures Tokens(t, r) == TokenOf(t.ledger, r) {
      assert !InDoubt(s, r);
      EnvironmentLeavesRows(p, s, step, r);
    }
  }

  /** Worker `w` hears that its row is accepted. */
  lemma AcceptAccounts(s: Sys, t: Sys, w: int, token: string)
    requires Exclusive(s) && Accounted(s) && Busy(s, w) && Unresolved(s.workers[w]) && !HasReply(s.workers[w])
    requires t.ledger == s.ledger && t.workers == s.workers[w := s.workers[w].(stage := Accepted(token))]
    requires t.accepted == s.accepted[s.workers[w].row := [token]]
    ensures Accounted(t)
  {
    var r := s.workers[w].row;
    forall q | !InDoubt(t, q) ensures Tokens(t, q) == TokenOf(t.ledger, q) {
      assert q != r by { assert HasReply(t.workers[w]); }
      forall v | v in s.workers && HasReply(s.workers[v]) ensures s.workers[v].row != q {
        assert HasReply(t.workers[v]);
      }
    }
    forall v | v in t.workers && HasReply(t.workers[v])
      ensures Tokens(t, t.workers[v].row) == [t.workers[v].stage.token]
    {
      if v != w { assert Busy(s, v); }
    }
  }

  /** A pending row that no worker has an answer for was never accepted. */
  lemma NeverAccepted(s: Sys, w: int)
    requires Sound(s.ledger) && Exclusive(s) && Accounted(s) && Busy(s, w) && Unresolved(s.workers[w])
    requires !HasReply(s.workers[w])
    ensures Tokens(s, s.workers[w].row) == []
  {
    var r := s.workers[w].row;
    forall v | v in s.workers && HasReply(s.workers[v]) ensures s.workers[v].row != r { assert Busy(s, v); }
    assert !InDoubt(s, r) && RowSound(s.ledger, r);
  }

  lemma AcceptKeepsAccounted(p: Policy, s: Sys, w: int, token: string)
    requires Sound(s.ledger) && Exclusive(s) && Accounted(s) && Enabled(p, s, CallPostal(w, Accept(token)))
    ensures Accounted(Apply(p, s, CallPostal(w, Accept(token))))
  {
    NeverAccepted(s, w);
    assert [] + [token] == [token];
    AcceptAccounts(s, Apply(p, s, CallPostal(w, Accept(token))), w, token);
  }

  lemma CommitOfPending(p: Policy, t: Sys, w: int)
    requires Enabled(p, t, RecordSend(w)) && StillPending(t.ledger, t.workers[w].row)
    ensures var u := Apply(p, t, RecordSend(w));
            && u.ledger.rows[t.workers[w].row].status == Sent
            && u.ledger.rows[t.workers[w].row].token == Some(t.workers[w].stage.token)
            && At(u, w, CountPool) && u.workers == t.workers[w := t.workers[w].(stage := CountPool)]
            && u.accepted == t.accepted && TokenOf(u.ledger, t.workers[w].row) == [t.workers[w].stage.token]
  {
  }

  /** Worker `w` commits the answer it carries. */
  lemma CommitAccounts(s: Sys, t: Sys, w: int)
    requires Exclusive(s) && Accounted(s) && Busy(s, w) && HasReply(s.workers[w]) && t.accepted == s.accepted
    requires t.workers == s.workers[w := s.workers[w].(stage := CountPool)]
    requires TokenOf(t.ledger, s.workers[w].row) == [s.workers[w].stage.token]
    requires forall q | q != s.workers[w].row :: TokenOf(t.ledger, q) == TokenOf(s.ledger, q)
    requires forall q | q != s.workers[w].row && StillPending(s.ledger, q) :: StillPending(t.ledger, q)
    ensures Accounted(t)
  {
    forall v | v in t.workers && Unresolved(t.workers[v]) ensures StillPending(t.ledger, t.workers[v].row) {
      assert v != w && Busy(s, v);
    }
    forall q | !InDoubt(t, q) ensures Tokens(t, q) == TokenOf(t.ledger, q) {
      if q != s.workers[w].row {
        forall v | v in s.workers && HasReply(s.workers[v]) ensures s.workers[v].row != q {
          if v != w { assert HasReply(t.workers[v]); }
        }
      }
    }
  }

  lemma CommitKeepsAccounted(p: Policy, s: Sys, w: int)
    requires Sound(s.ledger) && Exclusive(s) && Accounted(s) && Enabled(p, s, RecordSend(w))
    ensures Accounted(Apply(p, s, RecordSend(w)))
  {
    var t := Apply(p, s, RecordSend(w));
    assert Unresolved(s.workers[w]);
    CommitOfPending(p, s, w);
    forall q | q != s.workers[w].row
      ensures TokenOf(t.ledger, q) == TokenOf(s.ledger, q) && (StillPending(s.ledger, q) ==> StillPending(t.ledger, q))
    {
      WorkerLeavesOtherRows(p, s, RecordSend(w), q);
    }
    CommitAccounts(s, t, w);
  }

  /** Worker `w` moves on to `y` and the ledger to `m` without touching Postal's answers. */
  ghost predicate Shifts(s: Sys, w: int, y: Worker, m: Ledger) {
    && w in s.workers && !HasReply(s.workers[w]) && !HasReply(y) && (Unresolved(y) ==> StillPending(m, y.row))
    && (forall v | v != w && v in s.workers && Unresolved(s.workers[v]) :: StillPending(m, s.workers[v].row))
    && (forall r :: TokenOf(m, r) == TokenOf(s.ledger, r))
  }

  lemma AccountedShift(s: Sys, t: Sys, w: int, y: Worker)
    requires Accounted(s) && Shifts(s, w, y, t.ledger) && t.accepted == s.accepted && t.workers == s.workers[w := y]
    ensures Accounted(t)
  {
    forall q | !InDoubt(t, q) ensures Tokens(t, q) == TokenOf(t.ledger, q) {
      forall v | v in s.workers && HasReply(s.workers[v]) ensures s.workers[v].row != q {
        assert HasReply(t.workers[v]);
      }
    }
  }

  lemma PartsOf(p: Policy, s: Sys, step: Step)
    requires Enabled(p, s, step) && ByWorker(step)
    ensures var t := Apply(p, s, step);
            t.ledger == LedgerAfter(p, s, step) && t.workers == s.workers[step.w := WorkerAfter(p, s, step)]
  {
  }

  /** A worker that goes on, or enters, finds its row pending; only the answer to a call carries a token. */
  lemma WorkerStaysPending(p: Policy, s: Sys, step: Step)
    requires Accounted(s) && Enabled(p, s, step) && Orderly(s, step)
    requires ByWorker(step) && !step.RecordSend? && !(step.CallPostal? && step.reply.Accept?)
    ensures var x, y := s.workers[step.w], WorkerAfter(p, s, step);
            && !HasReply(x) && !HasReply(y)
            && (Unresolved(y) ==> LedgerAfter(p, s, step) == s.ledger && StillPending(s.ledger, y.row))
  {
  }

  lemma AcceptedUntouched(p: Policy, s: Sys, step: Step)
    requires Enabled(p, s, step) && !(step.CallPostal? && step.reply.Accept?)
    ensures Apply(p, s, step).accepted == s.accepted
  {
  }

  lemma OthersUntouched(p: Policy, s: Sys, step: Step)
    requires Sound(s.ledger) && Exclusive(s) && Accounted(s) && Enabled(p, s, step) && ByWorker(step)
    requires !step.RecordSend?
    ensures OthersKept(s, step.w, LedgerAfter(p, s, step))
  {
    forall v | v != step.w && v in s.workers && Unresolved(s.workers[v])
      ensures StillPending(LedgerAfter(p, s, step), s.workers[v].row)
    {
      assert Busy(s, v);
      WorkerLeavesOtherRows(p, s, step, s.workers[v].row);
    }
    forall r ensures TokenOf(LedgerAfter(p, s, step), r) == TokenOf(s.ledger, r) {
      WorkerLeavesOtherRows(p, s, step, r);
    }
  }

  ghost predicate OthersKept(s: Sys, w: int, m: Ledger) {
    && (forall v | v != w && v in s.workers && Unresolved(s.workers[v]) :: StillPending(m, s.workers[v].row))
    && (forall r :: TokenOf(m, r) == TokenOf(s.ledger, r))
  }

  lemma WorkShifts(p: Policy, s: Sys, step: Step)
    requires Accounted(s) && Enabled(p, s, step) && Orderly(s, step) && ByWorker(step)
    requires OthersKept(s, step.w, LedgerAfter(p, s, step)) && !step.RecordSend?
    requires !(step.CallPostal? && step.reply.Accept?)
    ensures Shifts(s, step.w, WorkerAfter(p, s, step), LedgerAfter(p, s, step))
  {
    WorkerStaysPending(p, s, step);
  }

  /** The other steps of a worker: it keeps or drops its row, and no token changes hands. */
  lemma WorkKeepsAccounted(p: Policy, s: Sys, step: Step)
    requires Sound(s.ledger) && Exclusive(s) && Accounted(s) && Enabled(p, s, step) && Orderly(s, step)
    requires ByWorker(step) && !step.RecordSend? && !(step.CallPostal? && step.reply.Accept?)
    ensures Accounted(Apply(p, s, step))
  {
    OthersUntouched(p, s, step);
    WorkShifts(p, s, step);
    AcceptedUntouched(p, s, step);
    PartsOf(p, s, step);
    AccountedShift(s, Apply(p, s, step), step.w, WorkerAfter(p, s, step));
  }

  lemma {:induction false} StepKeepsAccounted(p: Policy, s: Sys, step: Step)
    requires Sound(s.ledger) && Exclusive(s) && Accounted(s) && Enabled(p, s, step) && Orderly(s, step)
    ensures Accounted(Apply(p, s, step))
  {
    if !ByWorker(step) {
      EnvironmentKeepsAccounted(p, s, step);
    } else if step.RecordSend? {
      CommitKeepsAccounted(p, s, step.w);
    } else if step.CallPostal? && step.reply.Accept? {
      AcceptKeepsAccounted(p, s, step.w, step.reply.token);
    } else {
      WorkKeepsAccounted(p, s, step);
    }
  }

  lemma {:induction false} RunKeepsAccounted(p: Policy, s: Sys, steps: seq<Step>)
    requires Start(s) && Run(p, s, steps) && OrderlyRun(p, s, steps)
    ensures var t := Exec(p, s, steps); Sound(t.ledger) && Exclusive(t) && Accounted(t)
  {
    if steps == [] {
    } else {
      var before := steps[..|steps| - 1];
      RunKeepsAccounted(p, s, before);
      StepKeepsSound(p, Exec(p, s, before), steps[|steps| - 1]);
      StepKeepsExclusive(p, Exec(p, s, before), steps[|steps| - 1]);
      StepKeepsAccounted(p, Exec(p, s, before), steps[|steps| - 1]);
    }
  }

  /**
   Postal accepted the row at most once; and when no worker is between Postal's answer and its commit, the row's token
   is exactly what Postal returned, so that accepted once, having a token and being sent, delivered or bounced are the
   same thing.
   */
  ghost predicate AcceptedOnce(t: Sys, r: int) {
    if InDoubt(t, r) then |Tokens(t, r)| == 1 && StillPending(t.ledger, r)
    else
      && Tokens(t, r) == TokenOf(t.ledger, r)
      && (|Tokens(t, r)| == 1 <==> r in t.ledger.rows && t.ledger.rows[r].status in SENT_LIKE)
  }

  lemma AccountedRowAcceptedOnce(t: Sys, r: int)
    requires Sound(t.ledger) && Accounted(t)
    ensures AcceptedOnce(t, r)
  {
    if r in t.ledger.rows { assert RowSound(t.ledger, r); }
    if InDoubt(t, r) {
      var w :| w in t.workers && HasReply(t.workers[w]) && t.workers[w].row == r;
      assert Unresolved(t.workers[w]);
    }
  }

  /** The idempotency promise: in every orderly run every row is accepted at most once, and the books are sound. */
  lemma {:induction false} AcceptedAtMostOnce(p: Policy, s: Sys, steps: seq<Step>)
    requires Start(s) && Run(p, s, steps) && OrderlyRun(p, s, steps)
    ensures var t := Exec(p, s, steps); Sound(t.ledger) && forall r :: AcceptedOnce(t, r) && |Tokens(t, r)| <= 1
  {
    RunKeepsAccounted(p, s, steps);
    forall r ensures AcceptedOnce(Exec(p, s, steps), r) { AccountedRowAcceptedOnce(Exec(p, s, steps), r); }
  }

  /** In an orderly run the guard of Phase 4 never fails: the row is there and pending when the send is recorded. */
  lemma {:induction false} CommitNeverGuarded(p: Policy, s: Sys, steps: seq<Step>, w: int)
    requires Start(s) && Run(p, s, steps) && OrderlyRun(p, s, steps) && Enabled(p, Exec(p, s, steps), RecordSend(w))
    ensures var t := Exec(p, s, steps);
            var u := Apply(p, t, RecordSend(w));
            && StillPending(t.ledger, t.workers[w].row)
            && u.ledger.rows[t.workers[w].row].status == Sent
            && u.ledger.rows[t.workers[w].row].token == Some(t.workers[w].stage.token)
            && At(u, w, CountPool)
  {
    RunKeepsAccounted(p, s, steps);
    assert Unresolved(Exec(p, s, steps).workers[w]);
    CommitOfPending(p, Exec(p, s, steps), w);
  }
}
