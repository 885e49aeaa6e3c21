/** Which pool a message goes out through, from the campaign it was materialized for to the counter it moves. */
module PoolPath {
  import opened Text
  import opened RecipientLedger
  import opened Webhook
  import opened Protocol

  /** Row `r` belongs to the pool, and so does every send of it that is under way. */
  ghost predicate OnPool(s: Sys, r: int, pool: string) {
    && r in s.ledger.rows && s.ledger.rows[r].pool == Some(pool)
    && forall w | w in s.workers && s.workers[w].Working? && s.workers[w].row == r :: s.workers[w].job.pool == pool
  }

  ghost predicate WorkersOnRows(s: Sys) {
    forall w | w in s.workers && s.workers[w].Working? :: s.workers[w].row in s.ledger.rows
  }

  // ----- A row keeps its pool -----

  lemma LedgerKeepsPool(p: Policy, s: Sys, step: Step, r: int, pool: string)
    requires Enabled(p, s, step) && OnPool(s, r, pool)
    ensures r in LedgerAfter(p, s, step).rows && LedgerAfter(p, s, step).rows[r].pool == Some(pool)
  {
    if step.RecordSend? {
    } else if ByWorker(step) {
      WorkerSettles(p, s, step);
      if LedgerAfter(p, s, step) != s.ledger {
        SettlingTouches(s.ledger, LedgerAfter(p, s, step), s.workers[step.w].row, false);
      }
    } else if step.Receive? {
      ReconcileGrows(s.ledger, step.event, step.hit);
    } else {
      EnvironmentKeepsPools(p, s, step, r);
    }
  }

  lemma EnvironmentKeepsPools(p: Policy, s: Sys, step: Step, r: int)
    requires Enabled(p, s, step) && !ByWorker(step) && !step.Receive? && r in s.ledger.rows
    ensures r in LedgerAfter(p, s, step).rows && LedgerAfter(p, s, step).rows[r].pool == s.ledger.rows[r].pool
  {
  }

  lemma WorkerKeepsPool(p: Policy, s: Sys, step: Step, r: int, pool: string)
    requires Enabled(p, s, step) && ByWorker(step) && OnPool(s, r, pool) && pool != ""
    ensures var y := WorkerAfter(p, s, step); y.Working? && y.row == r ==> y.job.pool == pool
  {
    if step.Phase1? { ProceedsWhen(s.ledger, s.workers[step.w].row, step.cap, step.defers); }
  }

  lemma WorkersAfter(p: Policy, s: Sys, step: Step)
    requires Enabled(p, s, step)
    ensures Apply(p, s, step).ledger == LedgerAfter(p, s, step)
    ensures Apply(p, s, step).workers ==
            if ByWorker(step) then s.workers[step.w := WorkerAfter(p, s, step)] else s.workers
  {
  }

  lemma StepKeepsPool(p: Policy, s: Sys, step: Step, r: int, pool: string)
    requires Enabled(p, s, step) && OnPool(s, r, pool) && pool != ""
    ensures OnPool(Apply(p, s, step), r, pool)
  {
    LedgerKeepsPool(p, s, step, r, pool);
    WorkersAfter(p, s, step);
    if ByWorker(step) { WorkerKeepsPool(p, s, step, r, pool); }
  }

  lemma {:induction false} RunKeepsPool(p: Policy, s: Sys, steps: seq<Step>, r: int, pool: string)
    requires Run(p, s, steps) && OnPool(s, r, pool) && pool != ""
    ensures OnPool(Exec(p, s, steps), r, pool)
  {
    if steps != [] {
      var before := steps[..|steps| - 1];
      RunKeepsPool(p, s, before, r, pool);
      StepKeepsPool(p, Exec(p, s, before), steps[|steps| - 1], r, pool);
    }
  }

  // ----- Workers are on rows that exist -----

  lemma NewJobOnRow(p: Policy, s: Sys, step: Step)
    requires Enabled(p, s, step) && ByWorker(step) && WorkersOnRows(s)
    ensures var y := WorkerAfter(p, s, step); y.Working? ==> y.row in s.ledger.rows
  {
    if step.Phase1? { ProceedsWhen(s.ledger, s.workers[step.w].row, step.cap, step.defers); }
  }

  lemma StepKeepsWorkersOnRows(p: Policy, s: Sys, step: Step)
    requires Sound(s.ledger) && Enabled(p, s, step) && WorkersOnRows(s)
    ensures WorkersOnRows(Apply(p, s, step))
  {
    StepKeepsSound(p, s, step);
    WorkersAfter(p, s, step);
    if ByWorker(step) { NewJobOnRow(p, s, step); }
  }

  lemma {:induction false} RunKeepsWorkersOnRows(p: Policy, s: Sys, steps: seq<Step>)
    requires Start(s) && Run(p, s, steps)
    ensures Sound(Exec(p, s, steps).ledger) && WorkersOnRows(Exec(p, s, steps))
  {
    if steps != [] {
      var before := steps[..|steps| - 1];
      RunKeepsWorkersOnRows(p, s, before);
      StepKeepsSound(p, Exec(p, s, before), steps[|steps| - 1]);
      StepKeepsWorkersOnRows(p, Exec(p, s, before), steps[|steps| - 1]);
    }
  }

  // ----- From the campaign to the counter -----

  /** A materialized row takes its campaign's pool, or none if the campaign has none. */
  lemma MaterializedOnPool(p: Policy, s: Sys, c: int, added: map<int, Row>, r: int)
    requires Sound(s.ledger) && WorkersOnRows(s) && Enabled(p, s, Materialize(c, added)) && IsSending(s.ledger, c)
    requires s.ledger.campaigns[c].lists != {} && r in added
    ensures var t := Apply(p, s, Materialize(c, added));
            && r in t.ledger.rows && t.ledger.rows[r].pool == s.ledger.campaigns[c].pool
            && (s.ledger.campaigns[c].pool.Some? ==> OnPool(t, r, s.ledger.campaigns[c].pool.value))
  {
    WorkersAfter(p, s, Materialize(c, added));
    assert added[r] == NewRow(s.ledger, Ineligible(p, s, c), c, added[r].contact, s.contacts[added[r].contact]);
  }

  /**
   A row materialized for a campaign with a pool belongs to that pool in every later state of every run, and so does
   every send of it: it is stored with the pool, held back by the pool's cap and counted against it.
   */
  lemma {:induction false} SendsThroughItsPool(p: Policy, s: Sys, before: seq<Step>, c: int, added: map<int, Row>,
                                               r: int,
                                               after: seq<Step>, pool: string)
    requires Start(s) && Run(p, s, before) && Enabled(p, Exec(p, s, before), Materialize(c, added))
    requires var l := Exec(p, s, before).ledger;
             IsSending(l, c) && l.campaigns[c].lists != {}
             && l.campaigns[c].pool == Some(pool) && pool != "" && r in added
    requires Run(p, Apply(p, Exec(p, s, before), Materialize(c, added)), after)
    ensures var t := Exec(p, Apply(p, Exec(p, s, before), Materialize(c, added)), after);
            OnPool(t, r, pool) && SendsUse(p, t, r, pool)
  {
    RunKeepsWorkersOnRows(p, s, before);
    MaterializedOnPool(p, Exec(p, s, before), c, added, r);
    RunKeepsPool(p, Apply(p, Exec(p, s, before), Materialize(c, added)), after, r, pool);
    var t := Exec(p, Apply(p, Exec(p, s, before), Materialize(c, added)), after);
    forall w | w in t.workers && t.workers[w].Working? && t.workers[w].row == r ensures UsesPool(p, t, w, pool) {
      JobUsesPool(p, t, w);
    }
  }

  /** The steps in which a worker deals with pools deal with this one. */
  ghost predicate UsesPool(p: Policy, t: Sys, w: int, pool: string)
    requires w in t.workers && t.workers[w].Working?
  {
    var x, day := t.workers[w], DayOf(t.now);
    && (x.stage.PoolCap? ==>
          (Apply(p, t, CheckPoolCap(w)).workers[w].Leaving? <==> PoolUsed(t, pool, day) >= p.poolCap))
    && (x.stage.Accepted? && StillPending(t.ledger, x.row) ==>
          var l := Apply(p, t, RecordSend(w)).ledger; x.row in l.rows && l.rows[x.row].pool == Some(pool))
    && (x.stage.CountPool? ==>
          Apply(p, t, CountInPool(w)).poolSent == t.poolSent[(pool, day) := PoolUsed(t, pool, day) + 1])
  }

  ghost predicate SendsUse(p: Policy, t: Sys, r: int, pool: string) {
    forall w | w in t.workers && t.workers[w].Working? && t.workers[w].row == r :: UsesPool(p, t, w, pool)
  }

  lemma JobUsesPool(p: Policy, t: Sys, w: int)
    requires w in t.workers && t.workers[w].Working?
    ensures UsesPool(p, t, w, t.workers[w].job.pool)
  {
    var x := t.workers[w];
    if x.stage.PoolCap? { CapOfJobPool(p, t, w); }
    if x.stage.Accepted? && StillPending(t.ledger, x.row) { StoredJobPool(p, t, w); }
  }

  lemma CapOfJobPool(p: Policy, t: Sys, w: int)
    requires Enabled(p, t, CheckPoolCap(w))
    ensures Apply(p, t, CheckPoolCap(w)).workers[w].Leaving? <==>
              PoolUsed(t, t.workers[w].job.pool, DayOf(t.now)) >= p.poolCap
  {
  }

  lemma StoredJobPool(p: Policy, t: Sys, w: int)
    requires Enabled(p, t, RecordSend(w)) && StillPending(t.ledger, t.workers[w].row)
    ensures var l, x := Apply(p, t, RecordSend(w)).ledger, t.workers[w];
            x.row in l.rows && l.rows[x.row].pool == Some(x.job.pool)
  {
  }

  /**
   A row without a pool goes out through the campaign's at the time of Phase 1, and only without either through the
   default one.
   */
  lemma PhaseOneChoosesPool(p: Policy, s: Sys, w: int, cap: int, defers: bool, pool: string)
    requires Enabled(p, s, Phase1(w, cap, defers)) && Sendable(s.ledger, s.workers[w].row)
    requires var row := s.ledger.rows[s.workers[w].row]; PoolFor(row.pool, s.ledger.campaigns[row.campaign].pool, pool)
    ensures var t := Apply(p, s, Phase1(w, cap, defers));
            t.workers[w].Working? && t.workers[w].job.pool == pool && UsesPool(p, t, w, pool)
  {
    ProceedsWhen(s.ledger, s.workers[w].row, cap, defers);
  }
}
