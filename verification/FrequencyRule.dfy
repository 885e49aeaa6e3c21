/** The once-per-interval rule of a recurring campaign, over all runs. */
module FrequencyRule {
  import opened Text
  import opened RecipientLedger
  import opened Webhook
  import opened Protocol

  /** Any two of the times are strictly more than `gap` apart, in order. */
  ghost predicate Spaced(times: seq<int>, gap: int) {
    forall i, j | 0 <= i < j < |times| :: times[j] - times[i] > gap
  }

  /** A worker's job is about its row, and its frequency key is the parent of the row's campaign. */
  ghost predicate JobFits(l: Ledger, x: Worker) {
    x.Working? ==>
      && x.row in l.rows && x.job.campaign == l.rows[x.row].campaign && x.job.contact == l.rows[x.row].contact
      && x.job.campaign in l.campaigns && x.job.freq == l.campaigns[x.job.campaign].parent
  }

  /** The recurring campaign and contact whose interval a row spends, if its campaign is a run of one. */
  function KeyOf(l: Ledger, r: int): Option<(int, int)>
    requires r in l.rows && l.rows[r].campaign in l.campaigns
  {
    var parent := l.campaigns[l.rows[r].campaign].parent;
    if parent.Some? then Some((parent.value, l.rows[r].contact)) else None
  }

  /** Row `r` is pending and would spend `key`. */
  ghost predicate Awaits(l: Ledger, r: int, key: (int, int)) {
    StillPending(l, r) && l.rows[r].campaign in l.campaigns && KeyOf(l, r) == Some(key)
  }

  ghost predicate LogFits(s: Sys, key: (int, int), gap: int) {
    var times := RecordedTimes(s, key);
    && Spaced(times, gap)
    && (key in s.lastSent <==> times != [])
    && (times != [] ==> times[|times| - 1] == s.lastSent[key])
  }

  /** A contact with a pending row has had no send of that recurring campaign within the interval, and has no other. */
  ghost predicate Waiting(s: Sys, key: (int, int), gap: int) {
    && (forall r | Awaits(s.ledger, r, key) :: key in s.lastSent ==> s.lastSent[key] + gap < s.now)
    && (forall r, q | Awaits(s.ledger, r, key) && Awaits(s.ledger, q, key) :: r == q)
  }

  /** No run is materialized for a contact that another run of the same recurring campaign still has pending. */
  ghost predicate NoSiblingPending(s: Sys, step: Step) {
    step.Materialize? && step.c in s.ledger.campaigns && s.ledger.campaigns[step.c].parent.Some? ==>
      forall r | r in step.added && step.added[r].status == Pending ::
        forall q :: !Awaits(s.ledger, q, (s.ledger.campaigns[step.c].parent.value, step.added[r].contact))
  }

  ghost predicate NoSiblingPendingRun(p: Policy, s: Sys, steps: seq<Step>)
    requires Run(p, s, steps)
  {
    steps == [] ||
    (&& NoSiblingPendingRun(p, s, steps[..|steps| - 1])
     && NoSiblingPending(Exec(p, s, steps[..|steps| - 1]), steps[|steps| - 1]))
  }

  // ----- Jobs fit their rows -----

  lemma EvolvedJobFits(l: Ledger, m: Ledger, x: Worker)
    requires JobFits(l, x) && Evolves(l, m)
    ensures JobFits(m, x)
  {
  }

  lemma NewJobFits(p: Policy, s: Sys, step: Step)
    requires Enabled(p, s, step) && ByWorker(step) && JobFits(s.ledger, s.workers[step.w])
    ensures JobFits(s.ledger, WorkerAfter(p, s, step))
  {
  }

  lemma {:induction false} StepKeepsJobs(p: Policy, s: Sys, step: Step)
    requires Sound(s.ledger) && Enabled(p, s, step) && forall w | w in s.workers :: JobFits(s.ledger, s.workers[w])
    ensures forall w | w in Apply(p, s, step).workers :: JobFits(Apply(p, s, step).ledger, Apply(p, s, step).workers[w])
  {
    var t := Apply(p, s, step);
    StepKeepsSound(p, s, step);
    if ByWorker(step) { NewJobFits(p, s, step); }
    forall w | w in t.workers ensures JobFits(t.ledger, t.workers[w]) {
      EvolvedJobFits(s.ledger, t.ledger, t.workers[w]);
    }
  }

  // ----- Who waits -----

  lemma RowsAfter(p: Policy, s: Sys, step: Step)
    requires Enabled(p, s, step) && !step.Materialize?
    ensures LedgerAfter(p, s, step).rows.Keys == s.ledger.rows.Keys
  {
    if ByWorker(step) {
      WorkerSettles(p, s, step);
      if LedgerAfter(p, s, step) != s.ledger {
        SettlingTouches(s.ledger, LedgerAfter(p, s, step), s.workers[step.w].row, step.RecordSend?);
      }
    } else {
      EnvironmentRows(p, s, step);
    }
  }

  lemma EnvironmentRows(p: Policy, s: Sys, step: Step)
    requires Enabled(p, s, step) && !ByWorker(step) && !step.Materialize?
    ensures LedgerAfter(p, s, step).rows.Keys == s.ledger.rows.Keys
  {
    if step.Receive? { ReconcileGrows(s.ledger, step.event, step.hit); }
  }

  /** Except at a materialization, whoever waits afterwards was waiting before. */
  lemma {:induction false} NobodyNewAwaits(p: Policy, s: Sys, step: Step, r: int, key: (int, int))
    requires Sound(s.ledger) && Enabled(p, s, step) && !step.Materialize? && Awaits(Apply(p, s, step).ledger, r, key)
    ensures Awaits(s.ledger, r, key)
  {
    StepKeepsSound(p, s, step);
    RowsAfter(p, s, step);
    assert RowSound(s.ledger, r);
  }

  /** A fresh pending row of `c` for `key`. */
  ghost predicate Waits(p: Policy, s: Sys, c: int, added: map<int, Row>, r: int, key: (int, int))
    requires IsSending(s.ledger, c)
  {
    && r in added && added[r].status == Pending && added[r].contact == key.1
    && s.ledger.campaigns[c].parent == Some(key.0) && key.1 !in Ineligible(p, s, c)
  }

  lemma AwaitsAfterMaterialize(p: Policy, s: Sys, c: int, added: map<int, Row>, r: int, key: (int, int))
    requires Sound(s.ledger) && Enabled(p, s, Materialize(c, added))
    requires Awaits(MaterializeCampaign(s.ledger, c, added), r, key)
    ensures Awaits(s.ledger, r, key) || (IsSending(s.ledger, c) && Waits(p, s, c, added, r, key))
  {
    if r in s.ledger.rows { assert RowSound(s.ledger, r); }
  }

  lemma MaterializeKeepsWaiting(p: Policy, s: Sys, c: int, added: map<int, Row>, key: (int, int))
    requires Sound(s.ledger) && Enabled(p, s, Materialize(c, added)) && NoSiblingPending(s, Materialize(c, added))
    requires Waiting(s, key, p.interval)
    ensures Waiting(s.(ledger := MaterializeCampaign(s.ledger, c, added)), key, p.interval)
  {
    var m := MaterializeCampaign(s.ledger, c, added);
    forall r | Awaits(m, r, key) ensures key in s.lastSent ==> s.lastSent[key] + p.interval < s.now {
      AwaitsAfterMaterialize(p, s, c, added, r, key);
      IneligibleExactly(s.lastSent, key.0, s.now, p.interval, key.1);
    }
    forall r, q | Awaits(m, r, key) && Awaits(m, q, key) ensures r == q {
      AwaitsAfterMaterialize(p, s, c, added, r, key);
      AwaitsAfterMaterialize(p, s, c, added, q, key);
    }
  }

  // ----- The log -----

  /** The interval since the last send is over when the next one is recorded. */
  lemma SpacedAppend(times: seq<int>, now: int, gap: int)
    requires Spaced(times, gap) && gap >= 0 && (times != [] ==> now - times[|times| - 1] > gap)
    ensures Spaced(times + [now], gap)
  {
    forall i | 0 <= i < |times| - 1 ensures now - times[i] > gap { assert times[|times| - 1] - times[i] > gap; }
  }

  lemma RecordedAfter(p: Policy, s: Sys, w: int, key: (int, int))
    requires Enabled(p, s, RecordSend(w))
    ensures var t := Apply(p, s, RecordSend(w));
            && t.now == s.now
            && if SendRecorded(s.ledger, s.workers[w]) == Some(key)
               then RecordedTimes(t, key) == RecordedTimes(s, key) + [s.now]
                    && key in t.lastSent && t.lastSent[key] == s.now
               else RecordedTimes(t, key) == RecordedTimes(s, key) && (key in t.lastSent <==> key in s.lastSent)
                    && (key in s.lastSent ==> t.lastSent[key] == s.lastSent[key])
  {
    LogAfter(p, s, w);
  }

  lemma LogAfter(p: Policy, s: Sys, w: int)
    requires Enabled(p, s, RecordSend(w))
    ensures var t, sent := Apply(p, s, RecordSend(w)), SendRecorded(s.ledger, s.workers[w]);
            && t.now == s.now
            && if sent.None? then t.lastSent == s.lastSent && t.recorded == s.recorded
               else t.lastSent == s.lastSent[sent.value := s.now]
                    && t.recorded == s.recorded[sent.value := RecordedTimes(s, sent.value) + [s.now]]
  {
  }

  lemma ResolvedRowWaitsNoMore(p: Policy, s: Sys, w: int, r: int, key: (int, int))
    requires Sound(s.ledger) && Enabled(p, s, RecordSend(w)) && Awaits(Apply(p, s, RecordSend(w)).ledger, r, key)
    ensures Awaits(s.ledger, r, key) && r != s.workers[w].row
  {
    NobodyNewAwaits(p, s, RecordSend(w), r, key);
  }

  lemma RecordKeepsRule(p: Policy, s: Sys, w: int, key: (int, int))
    requires Sound(s.ledger) && Enabled(p, s, RecordSend(w)) && JobFits(s.ledger, s.workers[w]) && p.interval >= 0
    requires LogFits(s, key, p.interval) && Waiting(s, key, p.interval)
    ensures LogFits(Apply(p, s, RecordSend(w)), key, p.interval) && Waiting(Apply(p, s, RecordSend(w)), key, p.interval)
  {
    var t := Apply(p, s, RecordSend(w));
    RecordedAfter(p, s, w, key);
    forall r | Awaits(t.ledger, r, key) ensures Awaits(s.ledger, r, key) && r != s.workers[w].row {
      ResolvedRowWaitsNoMore(p, s, w, r, key);
    }
    if SendRecorded(s.ledger, s.workers[w]) == Some(key) {
      assert Awaits(s.ledger, s.workers[w].row, key);
      SpacedAppend(RecordedTimes(s, key), s.now, p.interval);
    }
  }

  lemma OthersKeepLog(p: Policy, s: Sys, step: Step, key: (int, int))
    requires Enabled(p, s, step) && !step.RecordSend?
    ensures var t := Apply(p, s, step);
            t.lastSent == s.lastSent && t.recorded == s.recorded && t.now >= s.now
  {
  }

  lemma {:induction false} StepKeepsRule(p: Policy, s: Sys, step: Step, key: (int, int))
    requires Sound(s.ledger) && Enabled(p, s, step) && NoSiblingPending(s, step) && p.interval >= 0
    requires forall w | w in s.workers :: JobFits(s.ledger, s.workers[w])
    requires LogFits(s, key, p.interval) && Waiting(s, key, p.interval)
    ensures LogFits(Apply(p, s, step), key, p.interval) && Waiting(Apply(p, s, step), key, p.interval)
  {
    var t := Apply(p, s, step);
    if step.RecordSend? {
      RecordKeepsRule(p, s, step.w, key);
    } else {
      OthersKeepLog(p, s, step, key);
      if step.Materialize? {
        MaterializeKeepsWaiting(p, s, step.c, step.added, key);
        assert t == s.(ledger := MaterializeCampaign(s.ledger, step.c, step.added));
      } else {
        forall r | Awaits(t.ledger, r, key) ensures Awaits(s.ledger, r, key) { NobodyNewAwaits(p, s, step, r, key); }
      }
    }
  }

  lemma {:induction false} RunKeepsRule(p: Policy, s: Sys, steps: seq<Step>, key: (int, int))
    requires Start(s) && Run(p, s, steps) && NoSiblingPendingRun(p, s, steps) && p.interval >= 0
    ensures var t := Exec(p, s, steps);
            && Sound(t.ledger) && (forall w | w in t.workers :: JobFits(t.ledger, t.workers[w]))
            && LogFits(t, key, p.interval) && Waiting(t, key, p.interval)
  {
    if steps == [] {
    } else {
      var before, step := steps[..|steps| - 1], steps[|steps| - 1];
      RunKeepsRule(p, s, before, key);
      StepKeepsSound(p, Exec(p, s, before), step);
      StepKeepsJobs(p, Exec(p, s, before), step);
      StepKeepsRule(p, Exec(p, s, before), step, key);
    }
  }

  /**
   Frequency safety: if no run is materialized for a contact that a sibling run still has pending, any two sends of
   a recurring campaign recorded for a contact are strictly more than the interval apart.
   */
  lemma {:induction false} SendsAreSpaced(p: Policy, s: Sys, steps: seq<Step>, parent: int, k: int)
    requires Start(s) && Run(p, s, steps) && NoSiblingPendingRun(p, s, steps) && p.interval >= 0
    ensures Spaced(RecordedTimes(Exec(p, s, steps), (parent, k)), p.interval)
  {
    RunKeepsRule(p, s, steps, (parent, k));
  }
}
