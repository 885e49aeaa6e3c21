/** When the skipped counter of a campaign is right, in terms of what happened in the run. */
module SkippedCounter {
  import opened RecipientLedger
  import opened Protocol

  /** The step materializes `c` and recounts it. */
  predicate Recounts(l: Ledger, step: Step, c: int) {
    step.Materialize? && step.c == c && IsSending(l, c) && l.campaigns[c].lists != {}
  }

  /** How many rows of `c` were sent or failed when `c` was last materialized; none before the first time. */
  ghost function SettledAtRecount(p: Policy, s: Sys, steps: seq<Step>, c: int): nat
    requires Run(p, s, steps)
  {
    if steps == [] then 0
    else
      var before, step := steps[..|steps| - 1], steps[|steps| - 1];
      if Recounts(Exec(p, s, before).ledger, step, c) then SettledRows(Exec(p, s, before).ledger.rows, c)
      else SettledAtRecount(p, s, before, c)
  }

  ghost predicate CarriedIs(l: Ledger, c: int, n: nat) {
    if c in l.campaigns then l.campaigns[c].carried == n else n == 0
  }

  lemma MaterializeCarries(l: Ledger, contacts: map<int, Contact>, ineligible: set<int>, c: int, added: map<int, Row>,
                           d: int, n: nat)
    requires CarriedIs(l, d, n)
    requires IsSending(l, c) ==> Snapshot(l, contacts, ineligible, c, added)
    ensures CarriedIs(MaterializeCampaign(l, c, added), d,
                      if c == d && IsSending(l, c) && l.campaigns[c].lists != {} then SettledRows(l.rows, d) else n)
  {
    if IsSending(l, c) { RecountIsRightWhen(l, contacts, ineligible, c, added); }
  }

  lemma WorkerCarries(p: Policy, s: Sys, step: Step, d: int, n: nat)
    requires Enabled(p, s, step) && ByWorker(step) && CarriedIs(s.ledger, d, n)
    ensures CarriedIs(LedgerAfter(p, s, step), d, n)
  {
    WorkerSettles(p, s, step);
    if LedgerAfter(p, s, step) != s.ledger {
      SettlingTouches(s.ledger, LedgerAfter(p, s, step), s.workers[step.w].row, step.RecordSend?);
    }
  }

  lemma EnvironmentCarries(p: Policy, s: Sys, step: Step, d: int, n: nat)
    requires Enabled(p, s, step) && !ByWorker(step) && !step.Materialize? && CarriedIs(s.ledger, d, n)
    ensures CarriedIs(LedgerAfter(p, s, step), d, n)
  {
  }

  lemma StepCarries(p: Policy, s: Sys, step: Step, d: int, n: nat)
    requires Enabled(p, s, step) && CarriedIs(s.ledger, d, n)
    ensures CarriedIs(LedgerAfter(p, s, step), d,
                      if Recounts(s.ledger, step, d) then SettledRows(s.ledger.rows, d) else n)
  {
    if step.Materialize? {
      var ineligible := if IsSending(s.ledger, step.c) then Ineligible(p, s, step.c) else {};
      MaterializeCarries(s.ledger, s.contacts, ineligible, step.c, step.added, d, n);
    } else if ByWorker(step) {
      WorkerCarries(p, s, step, d, n);
    } else {
      EnvironmentCarries(p, s, step, d, n);
    }
  }

  lemma {:induction false} RunCarries(p: Policy, s: Sys, steps: seq<Step>, c: int)
    requires Start(s) && Run(p, s, steps)
    ensures CarriedIs(Exec(p, s, steps).ledger, c, SettledAtRecount(p, s, steps, c))
  {
    if steps != [] {
      var before := steps[..|steps| - 1];
      RunCarries(p, s, before, c);
      StepCarries(p, Exec(p, s, before), steps[|steps| - 1], c, SettledAtRecount(p, s, before, c));
    }
  }

  /**
   In every run the skipped counter exceeds the skipped rows by exactly the rows that were sent or failed when the
   campaign was last materialized, and the counters add up to the total short of those. Both are right if and only if
   there were none.
   */
  lemma {:induction false} SkippedCountInRuns(p: Policy, s: Sys, steps: seq<Step>, c: int)
    requires Start(s) && Run(p, s, steps) && c in Exec(p, s, steps).ledger.campaigns
    ensures var l := Exec(p, s, steps).ledger;
            var k, pending, early := l.campaigns[c], Count(l.rows, c, {Pending}), SettledAtRecount(p, s, steps, c);
            && Sound(l)
            && k.skipped == Count(l.rows, c, SKIPPED) + early
            && k.total == pending + k.sent + k.failed + k.skipped - early
            && (k.skipped == Count(l.rows, c, SKIPPED) && k.total == pending + k.sent + k.failed + k.skipped <==>
                 early == 0)
  {
    RunKeepsSound(p, s, steps);
    RunCarries(p, s, steps, c);
    CountersConserved(Exec(p, s, steps).ledger, c);
    assert CampaignSound(Exec(p, s, steps).ledger, c);
  }

  /** Whenever `c` is materialized, none of its rows has been sent or has failed. */
  ghost predicate MaterializedFirst(p: Policy, s: Sys, steps: seq<Step>, c: int)
    requires Run(p, s, steps)
  {
    steps == [] ||
    var before, step := steps[..|steps| - 1], steps[|steps| - 1];
    && MaterializedFirst(p, s, before, c)
    && (step.Materialize? && step.c == c ==> SettledRows(Exec(p, s, before).ledger.rows, c) == 0)
  }

  /** So the counters are right in every run in which sending starts only after the last materialization. */
  lemma {:induction false} CountersOfOrderlyCampaign(p: Policy, s: Sys, steps: seq<Step>, c: int)
    requires Start(s) && Run(p, s, steps) && c in Exec(p, s, steps).ledger.campaigns
    requires MaterializedFirst(p, s, steps, c)
    ensures var l := Exec(p, s, steps).ledger;
            var k := l.campaigns[c];
            && Sound(l)
            && k.skipped == Count(l.rows, c, SKIPPED)
            && k.total == Count(l.rows, c, {Pending}) + k.sent + k.failed + k.skipped
  {
    SkippedCountInRuns(p, s, steps, c);
    NothingSettled(p, s, steps, c);
  }

  lemma {:induction false} NothingSettled(p: Policy, s: Sys, steps: seq<Step>, c: int)
    requires Run(p, s, steps) && MaterializedFirst(p, s, steps, c)
    ensures SettledAtRecount(p, s, steps, c) == 0
  {
    if steps != [] { NothingSettled(p, s, steps[..|steps| - 1], c); }
  }
}
