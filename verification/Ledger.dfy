/**
 The database as the send pipeline sees it: the recipient ledger, the campaigns with their
 counters, the global suppression list and the event log, with the transactions that change them.
 */
module RecipientLedger {
  import opened Text

  datatype RowStatus =
    | Pending | Sent | Delivered | Bounced | Failed | SkippedSuppressed | SkippedFrequency | SkippedCap

  datatype CampaignStatus =
    | Draft | Scheduled | Sending | Paused | Completed | CampaignFailed | Cancelled | PlannerDefinition

  /** One message to one contact; `email` is the snapshot taken at materialization. */
  datatype Row = Row(campaign: int, contact: int, email: string, pool: Option<string>, status: RowStatus,
                     token: Option<string>, error: Option<string>, lastEvent: Option<int>)

  /**
   `carried` is a history variable: the rows that were already sent or failed when the campaign was
   last materialized, which that materialization counted as skipped.
   */
  datatype Campaign = Campaign(status: CampaignStatus, parent: Option<int>, pool: Option<string>, lists: set<int>,
                               template: Option<string>, scheduledAt: Option<int>,
                               total: int, queued: int, sent: int, delivered: int, bounced: int,
                               failed: int, skipped: int, carried: int)

  datatype ContactStatus = Active | ContactBounced | Unsubscribed | Complained

  datatype Contact = Contact(email: string, list: int, status: ContactStatus)

  datatype Reason = HardBounce | Complaint | Unsubscribe | Manual | Invalid

  datatype Suppression = Suppression(reason: Reason, detail: Option<string>)

  datatype LogEntry = LogEntry(row: int, kind: string, status: Option<string>, uuid: Option<string>, at: int)

  datatype Ledger = Ledger(rows: map<int, Row>, campaigns: map<int, Campaign>,
                           suppressions: map<string, Suppression>, log: seq<LogEntry>)

  const SENT_LIKE: set<RowStatus> := {Sent, Delivered, Bounced}
  const SKIPPED: set<RowStatus> := {SkippedSuppressed, SkippedFrequency, SkippedCap}
  const ANY: set<RowStatus> :=
    {Pending, Sent, Delivered, Bounced, Failed, SkippedSuppressed, SkippedFrequency, SkippedCap}

  // ----- Counting rows -----

  function RowsIn(rows: map<int, Row>, c: int, ss: set<RowStatus>): set<int> {
    set r | r in rows.Keys && rows[r].campaign == c && rows[r].status in ss
  }

  function Count(rows: map<int, Row>, c: int, ss: set<RowStatus>): nat {
    |RowsIn(rows, c, ss)|
  }

  /** Rewriting one row moves each count by what that row contributes. */
  lemma CountWrite(rows: map<int, Row>, r: int, row: Row, c: int, ss: set<RowStatus>)
    requires r in rows && row.campaign == rows[r].campaign
    ensures Count(rows[r := row], c, ss) ==
            Count(rows, c, ss) + (if row.campaign != c then 0
                                  else (if row.status in ss then 1 else 0) - (if rows[r].status in ss then 1 else 0))
  {
    var before, after := RowsIn(rows, c, ss), RowsIn(rows[r := row], c, ss);
    forall q | q != r ensures q in before <==> q in after {}
    assert before - {r} == after - {r};
    assert |before| == |before - {r}| + if r in before then 1 else 0;
    assert |after| == |after - {r}| + if r in after then 1 else 0;
  }

  lemma CountUnion(rows: map<int, Row>, added: map<int, Row>, c: int, ss: set<RowStatus>)
    requires added.Keys !! rows.Keys
    ensures Count(rows + added, c, ss) == Count(rows, c, ss) + Count(added, c, ss)
  {
    assert RowsIn(rows + added, c, ss) == RowsIn(rows, c, ss) + RowsIn(added, c, ss);
  }

  lemma NoneIn(rows: map<int, Row>, c: int, ss: set<RowStatus>)
    requires forall r | r in rows && rows[r].campaign == c :: rows[r].status !in ss
    ensures Count(rows, c, ss) == 0
  {
    forall r: int ensures r !in RowsIn(rows, c, ss) {}
  }

  lemma CountSplit(rows: map<int, Row>, c: int, s1: set<RowStatus>, s2: set<RowStatus>)
    requires s1 !! s2
    ensures Count(rows, c, s1 + s2) == Count(rows, c, s1) + Count(rows, c, s2)
  {
    assert RowsIn(rows, c, s1 + s2) == RowsIn(rows, c, s1) + RowsIn(rows, c, s2);
  }

  /** Every row of a campaign is pending, sent, failed or skipped, and only one of them. */
  lemma CountPartition(rows: map<int, Row>, c: int)
    ensures Count(rows, c, ANY) ==
            Count(rows, c, {Pending}) + Count(rows, c, SENT_LIKE) + Count(rows, c, {Failed}) + Count(rows, c, SKIPPED)
    ensures Count(rows, c, {Delivered}) + Count(rows, c, {Bounced}) <= Count(rows, c, SENT_LIKE)
  {
    CountSplit(rows, c, {Pending}, SENT_LIKE);
    CountSplit(rows, c, {Pending} + SENT_LIKE, {Failed});
    CountSplit(rows, c, {Pending} + SENT_LIKE + {Failed}, SKIPPED);
    assert {Pending} + SENT_LIKE + {Failed} + SKIPPED == ANY;
    CountSplit(rows, c, {Delivered}, {Bounced});
    CountSplit(rows, c, {Delivered} + {Bounced}, {Sent});
    assert {Delivered} + {Bounced} + {Sent} == SENT_LIKE;
  }

  // ----- Suppression -----

  /** The send-time check; an address without a normal form is never sent to. */
  predicate IsSuppressed(supp: map<string, Suppression>, email: string) {
    var n := NormalizeEmail(email);
    n.None? || n.value in supp
  }

  /** The first suppression of an address wins; later ones leave the stored row alone. */
  function Suppress(supp: map<string, Suppression>, email: string, why: Suppression): (r: map<string, Suppression>)
    ensures IsSuppressed(r, email)
    ensures forall e | e in supp :: e in r && r[e] == supp[e]
    ensures forall e | e in r :: e in supp || (NormalizeEmail(email) == Some(e) && r[e] == why)
  {
    var n := NormalizeEmail(email);
    if n.None? || n.value in supp then supp else supp[n.value := why]
  }

  function StatusFor(reason: Reason): ContactStatus {
    match reason
    case HardBounce => ContactBounced
    case Complaint => Complained
    case Unsubscribe => Unsubscribed
    case Invalid => ContactBounced
    case Manual => Unsubscribed
  }

  /** Suppressing also flips the status of the contact that has the address. */
  function MarkContact(contacts: map<int, Contact>, email: string, reason: Reason): map<int, Contact> {
    var n := NormalizeEmail(email);
    map k | k in contacts ::
      if n.Some? && contacts[k].email == n.value then contacts[k].(status := StatusFor(reason)) else contacts[k]
  }

  // ----- Transactions of the send pipeline -----

  datatype Counter = SentCount | FailedCount | SkippedCount | DeliveredCount | BouncedCount

  function Bumped(k: Campaign, which: Counter): Campaign {
    match which
    case SentCount => k.(sent := k.sent + 1)
    case FailedCount => k.(failed := k.failed + 1)
    case SkippedCount => k.(skipped := k.skipped + 1)
    case DeliveredCount => k.(delivered := k.delivered + 1)
    case BouncedCount => k.(bounced := k.bounced + 1)
  }

  function Bump(l: Ledger, c: int, which: Counter): Ledger {
    if c in l.campaigns then l.(campaigns := l.campaigns[c := Bumped(l.campaigns[c], which)]) else l
  }

  function SetStatus(l: Ledger, c: int, status: CampaignStatus): Ledger {
    if c in l.campaigns then l.(campaigns := l.campaigns[c := l.campaigns[c].(status := status)]) else l
  }

  function MaybeFinalize(l: Ledger, c: int): Ledger {
    if Count(l.rows, c, {Pending}) == 0 && c in l.campaigns && l.campaigns[c].status == Sending
    then SetStatus(l, c, Completed)
    else l
  }

  /** Rewrite one row, count it, and complete the campaign if that was its last pending row. */
  function Resolve(l: Ledger, r: int, row: Row, which: Counter): Ledger {
    MaybeFinalize(Bump(l.(rows := l.rows[r := row]), row.campaign, which), row.campaign)
  }

  /** What a worker keeps from Phase 1 for the rest of its run. */
  datatype Job = Job(campaign: int, freq: Option<int>, contact: int, email: string, pool: string,
                     cap: int, defers: bool)

  datatype Decision =
    | Missing | AlreadyProcessed | NoCampaign | PausedCampaign | NotSending(status: CampaignStatus)
    | SuppressedNow | NoTemplate | Proceed(job: Job)

  /** Phase 1 of `send_one`; `cap` and `defers` are the warming cap and overflow policy it reads. */
  function Validate(l: Ledger, r: int, cap: int, defers: bool): Decision {
    if r !in l.rows then Missing
    else
      var row := l.rows[r];
      if row.status != Pending then AlreadyProcessed
      else if row.campaign !in l.campaigns then NoCampaign
      else
        var k := l.campaigns[row.campaign];
        if k.status == Paused then PausedCampaign
        else if k.status != Sending then NotSending(k.status)
        else if IsSuppressed(l.suppressions, row.email) then SuppressedNow
        else if k.template.None? then NoTemplate
        else
          var pool := FirstTruthy(row.pool, k.pool, "default");
          Proceed(Job(row.campaign, k.parent, row.contact, row.email, pool, cap, defers))
  }

  /** The pool a row goes out through: its own, else its campaign's, else the default one. */
  predicate PoolFor(own: Option<string>, ofCampaign: Option<string>, pool: string) {
    if own.Some? && own.value != "" then pool == own.value
    else if ofCampaign.Some? && ofCampaign.value != "" then pool == ofCampaign.value
    else pool == "default"
  }

  /** A row whose send nothing forbids. */
  predicate Sendable(l: Ledger, r: int) {
    && StillPending(l, r)
    && var c := l.rows[r].campaign;
       && c in l.campaigns && l.campaigns[c].status == Sending && l.campaigns[c].template.Some?
       && !IsSuppressed(l.suppressions, l.rows[r].email)
  }

  /** Phase 1 lets exactly those rows through, with a job that says where each part of it comes from. */
  lemma ProceedsWhen(l: Ledger, r: int, cap: int, defers: bool)
    ensures Validate(l, r, cap, defers).Proceed? <==> Sendable(l, r)
    ensures Validate(l, r, cap, defers).Proceed? ==>
              var job, row := Validate(l, r, cap, defers).job, l.rows[r];
              var k := l.campaigns[row.campaign];
              && job.campaign == row.campaign && job.contact == row.contact && job.email == row.email
              && job.freq == k.parent && job.cap == cap && job.defers == defers && PoolFor(row.pool, k.pool, job.pool)
  {
  }

  function AfterPhase1(l: Ledger, r: int, d: Decision): Ledger
    requires d.SuppressedNow? || d.NoTemplate? ==> r in l.rows
  {
    match d
    case SuppressedNow => Resolve(l, r, l.rows[r].(status := SkippedSuppressed), SkippedCount)
    case NoTemplate =>
      Resolve(l, r, l.rows[r].(status := Failed, error := Some("campaign has no template")), FailedCount)
    case _ => l
  }

  predicate StillPending(l: Ledger, r: int) {
    r in l.rows && l.rows[r].status == Pending
  }

  /** The hard stop: the warming cap is spent, so a row that is still pending is skipped. */
  function SkipForCap(l: Ledger, r: int): Ledger {
    if StillPending(l, r) then Resolve(l, r, l.rows[r].(status := SkippedCap), SkippedCount) else l
  }

  function FailPermanently(l: Ledger, r: int, detail: string): Ledger {
    if StillPending(l, r)
    then Resolve(l, r, l.rows[r].(status := Failed, error := Some("permanent: " + detail)), FailedCount)
    else l
  }

  /** Phase 4: store Postal's token and the pool, unless something else resolved the row meanwhile. */
  function CommitSend(l: Ledger, r: int, pool: string, token: string): Ledger {
    if StillPending(l, r)
    then Resolve(l, r, l.rows[r].(status := Sent, token := Some(token), pool := Some(pool)), SentCount)
    else l
  }

  // ----- The frequency rule -----

  /** Contacts that received the recurring campaign within the interval, per `last_sent_at >= cutoff`. */
  function IneligibleContacts(lastSent: map<(int, int), int>, parent: Option<int>, now: int, interval: int): set<int> {
    if parent.None? then {}
    else set pk | pk in lastSent.Keys && pk.0 == parent.value && lastSent[pk] >= now - interval :: pk.1
  }

  lemma IneligibleExactly(lastSent: map<(int, int), int>, parent: int, now: int, interval: int, k: int)
    ensures k in IneligibleContacts(lastSent, Some(parent), now, interval)
            <==> (parent, k) in lastSent && lastSent[(parent, k)] >= now - interval
  {
    if (parent, k) in lastSent && lastSent[(parent, k)] >= now - interval {
      assert (parent, k) in lastSent.Keys;
      assert (parent, k).1 in IneligibleContacts(lastSent, Some(parent), now, interval);
    }
  }

  // ----- Materialization -----

  /** The contacts a materialization of `c` owes a row: active, in a pooled list, not yet on the ledger. */
  ghost predicate Due(l: Ledger, contacts: map<int, Contact>, c: int, k: int)
    requires c in l.campaigns
  {
    && k in contacts && contacts[k].status == Active && contacts[k].list in l.campaigns[c].lists
    && forall r | r in l.rows :: !(l.rows[r].campaign == c && l.rows[r].contact == k)
  }

  function NewStatus(l: Ledger, ineligible: set<int>, k: int, contact: Contact): RowStatus {
    if contact.email in l.suppressions then SkippedSuppressed
    else if k in ineligible then SkippedFrequency
    else Pending
  }

  function NewRow(l: Ledger, ineligible: set<int>, c: int, k: int, contact: Contact): Row
    requires c in l.campaigns
  {
    Row(c, k, contact.email, l.campaigns[c].pool, NewStatus(l, ineligible, k, contact), None, None, None)
  }

  /** `added` is a snapshot of the contacts `c` owes a row: one row for each of them and nothing else. */
  ghost predicate Snapshot(l: Ledger, contacts: map<int, Contact>, ineligible: set<int>, c: int, added: map<int, Row>)
    requires c in l.campaigns
  {
    && added.Keys !! l.rows.Keys
    && (forall r | r in added :: Due(l, contacts, c, added[r].contact)
                                 && added[r] == NewRow(l, ineligible, c, added[r].contact, contacts[added[r].contact]))
    && (forall r, q | r in added && q in added && added[r].contact == added[q].contact :: r == q)
    && (forall k | Due(l, contacts, c, k) :: exists r :: r in added && added[r].contact == k)
  }

  /** Rows that are sent or failed. */
  function SettledRows(rows: map<int, Row>, c: int): nat {
    Count(rows, c, SENT_LIKE) + Count(rows, c, {Failed})
  }

  /** The counters are recomputed from the whole ledger; `skipped` becomes everything not pending. */
  function Recounted(rows: map<int, Row>, c: int, k: Campaign): Campaign {
    k.(total := Count(rows, c, ANY),
       queued := Count(rows, c, {Pending}),
       skipped := Count(rows, c, ANY) - Count(rows, c, {Pending}),
       carried := SettledRows(rows, c))
  }

  function AddRows(l: Ledger, c: int, added: map<int, Row>): Ledger
    requires c in l.campaigns
  {
    l.(rows := l.rows + added, campaigns := l.campaigns[c := Recounted(l.rows + added, c, l.campaigns[c])])
  }

  // ----- What every transaction keeps -----

  ghost predicate Balanced(rows: map<int, Row>, c: int, k: Campaign) {
    && k.sent == Count(rows, c, SENT_LIKE)
    && k.failed == Count(rows, c, {Failed})
    && k.total == Count(rows, c, ANY)
    && k.skipped == Count(rows, c, SKIPPED) + k.carried
    && k.carried >= 0
    && Count(rows, c, {Pending}) <= k.queued
    && Count(rows, c, {Delivered}) <= k.delivered
    && Count(rows, c, {Bounced}) <= k.bounced
    && k.delivered - k.bounced <= Count(rows, c, {Delivered})
    && k.bounced - k.delivered <= Count(rows, c, {Bounced})
  }

  ghost predicate RowSound(l: Ledger, r: int)
    requires r in l.rows
  {
    var row := l.rows[r];
    && row.campaign in l.campaigns
    && (row.token.Some? <==> row.status in SENT_LIKE)
    && (row.status == Bounced ==> IsSuppressed(l.suppressions, row.email))
  }

  ghost predicate CampaignSound(l: Ledger, c: int)
    requires c in l.campaigns
  {
    && Balanced(l.rows, c, l.campaigns[c])
    && (l.campaigns[c].status == Completed ==> Count(l.rows, c, {Pending}) == 0)
  }

  ghost predicate OneRowEach(rows: map<int, Row>) {
    forall r, q | r in rows && q in rows && rows[r].campaign == rows[q].campaign && rows[r].contact == rows[q].contact
      :: r == q
  }

  ghost predicate Sound(l: Ledger) {
    && (forall r | r in l.rows :: RowSound(l, r))
    && (forall c | c in l.campaigns :: CampaignSound(l, c))
    && OneRowEach(l.rows)
  }

  /** What may happen to a row: its identity is fixed, it never goes back to pending, its token stays. */
  ghost predicate RowEvolves(a: Row, b: Row) {
    && a.campaign == b.campaign && a.contact == b.contact && a.email == b.email
    && (b.status == Pending ==> a.status == Pending)
    && (a.token.Some? ==> b.token == a.token)
  }

  ghost predicate Evolves(l: Ledger, m: Ledger) {
    && (forall r | r in l.rows :: r in m.rows && RowEvolves(l.rows[r], m.rows[r]))
    && (forall c | c in l.campaigns :: c in m.campaigns && l.campaigns[c].parent == m.campaigns[c].parent)
    && (forall e | e in l.suppressions :: e in m.suppressions && m.suppressions[e] == l.suppressions[e])
    && l.log <= m.log
  }

  lemma EvolvesTransitive(l: Ledger, m: Ledger, n: Ledger)
    requires Evolves(l, m) && Evolves(m, n)
    ensures Evolves(l, n)
  {
  }

  /** The counter arithmetic a reader of the dashboard relies on. */
  lemma CountersConserved(l: Ledger, c: int)
    requires Sound(l) && c in l.campaigns
    ensures var k := l.campaigns[c];
            && k.total == Count(l.rows, c, {Pending}) + k.sent + k.failed + (k.skipped - k.carried)
            && -k.sent <= k.delivered - k.bounced <= k.sent
            && (k.skipped == Count(l.rows, c, SKIPPED) <==> k.carried == 0)
            && (k.total == Count(l.rows, c, {Pending}) + k.sent + k.failed + k.skipped <==> k.carried == 0)
  {
    assert CampaignSound(l, c);
    CountPartition(l.rows, c);
  }

  lemma CampaignUntouched(l: Ledger, r: int, row: Row, c: int)
    requires r in l.rows && row.campaign == l.rows[r].campaign && row.campaign != c
    requires c in l.campaigns && Balanced(l.rows, c, l.campaigns[c])
    ensures Balanced(l.rows[r := row], c, l.campaigns[c])
    ensures Count(l.rows[r := row], c, {Pending}) == Count(l.rows, c, {Pending})
  {
    forall ss: set<RowStatus> ensures Count(l.rows[r := row], c, ss) == Count(l.rows, c, ss) {
      CountWrite(l.rows, r, row, c, ss);
    }
  }

  /** Which counter goes with which outcome of a pending row. */
  ghost predicate Outcome(a: Row, b: Row, which: Counter) {
    && RowEvolves(a, b) && a.status == Pending
    && (b.token.Some? <==> b.status in SENT_LIKE)
    && match which
       case SentCount => b.status == Sent
       case FailedCount => b.status == Failed
       case SkippedCount => b.status in SKIPPED
       case _ => false
  }

  lemma OutcomeBalances(rows: map<int, Row>, r: int, row: Row, which: Counter, k: Campaign)
    requires r in rows && Outcome(rows[r], row, which) && Balanced(rows, row.campaign, k)
    ensures Balanced(rows[r := row], row.campaign, Bumped(k, which))
  {
    var c := row.campaign;
    CountWrite(rows, r, row, c, SENT_LIKE);
    CountWrite(rows, r, row, c, {Failed});
    CountWrite(rows, r, row, c, SKIPPED);
    CountWrite(rows, r, row, c, ANY);
    CountWrite(rows, r, row, c, {Pending});
    CountWrite(rows, r, row, c, {Delivered});
    CountWrite(rows, r, row, c, {Bounced});
  }

  /** `m` is `l` with one row rewritten soundly; suppressions may have grown. */
  ghost predicate Rewrites(l: Ledger, m: Ledger, r: int) {
    && r in l.rows && r in m.rows && m.rows == l.rows[r := m.rows[r]]
    && RowEvolves(l.rows[r], m.rows[r]) && RowSound(m, r)
    && m.campaigns.Keys == l.campaigns.Keys
    && (forall c | c in l.campaigns :: m.campaigns[c].parent == l.campaigns[c].parent)
    && (forall e | e in l.suppressions :: e in m.suppressions && m.suppressions[e] == l.suppressions[e])
    && l.log <= m.log
  }

  lemma RewriteKeepsRows(l: Ledger, m: Ledger, r: int)
    requires Sound(l) && Rewrites(l, m, r)
    ensures forall q | q in m.rows :: RowSound(m, q)
    ensures OneRowEach(m.rows) && Evolves(l, m)
  {
    forall q | q in m.rows ensures RowSound(m, q) { assert RowSound(l, q); }
  }

  lemma ResolveKeepsSound(l: Ledger, r: int, row: Row, which: Counter)
    requires Sound(l) && r in l.rows && Outcome(l.rows[r], row, which)
    ensures Sound(Resolve(l, r, row, which)) && Evolves(l, Resolve(l, r, row, which))
  {
    var c := row.campaign;
    var m := Resolve(l, r, row, which);
    assert RowSound(l, r);
    assert Sound(m) && Evolves(l, m) by {
      RewriteKeepsRows(l, m, r);
      forall d | d in m.campaigns ensures CampaignSound(m, d) { ResolveKeepsCampaign(l, r, row, which, d); }
    }
  }

  lemma ResolveKeepsCampaign(l: Ledger, r: int, row: Row, which: Counter, d: int)
    requires r in l.rows && Outcome(l.rows[r], row, which)
    requires d in l.campaigns && CampaignSound(l, d)
    ensures CampaignSound(Resolve(l, r, row, which), d)
  {
    if d == row.campaign {
      OutcomeBalances(l.rows, r, row, which, l.campaigns[d]);
      CountWrite(l.rows, r, row, d, {Pending});
    } else {
      CampaignUntouched(l, r, row, d);
    }
  }

  lemma CampaignUntouchedByRows(rows: map<int, Row>, added: map<int, Row>, c: int, k: Campaign)
    requires added.Keys !! rows.Keys && Balanced(rows, c, k)
    requires forall r | r in added :: added[r].campaign != c
    ensures Balanced(rows + added, c, k) && Count(rows + added, c, {Pending}) == Count(rows, c, {Pending})
  {
    forall ss: set<RowStatus> ensures Count(rows + added, c, ss) == Count(rows, c, ss) {
      CountUnion(rows, added, c, ss);
      NoneIn(added, c, ss);
    }
  }

  /** New rows are pending or skipped, so recounting leaves the campaign balanced. */
  lemma RecountBalances(rows: map<int, Row>, added: map<int, Row>, c: int, k: Campaign)
    requires added.Keys !! rows.Keys && Balanced(rows, c, k)
    requires forall r | r in added :: added[r].status == Pending || added[r].status in SKIPPED
    ensures Balanced(rows + added, c, Recounted(rows + added, c, k))
  {
    SettledUntouched(rows, added, c, SENT_LIKE);
    SettledUntouched(rows, added, c, {Failed});
    SettledUntouched(rows, added, c, {Delivered});
    SettledUntouched(rows, added, c, {Bounced});
    CountPartition(rows + added, c);
  }

  lemma AnyStatus(s: RowStatus)
    ensures s in ANY
  {
  }

  /**
   A recount sets the skipped counter to the skipped rows and the settled ones together, so it is right if and only if
   nothing was sent or failed before.
   */
  lemma RecountIsRightWhen(l: Ledger, contacts: map<int, Contact>, ineligible: set<int>, c: int, added: map<int, Row>)
    requires c in l.campaigns && Snapshot(l, contacts, ineligible, c, added)
    ensures var m := AddRows(l, c, added);
            && m.campaigns[c].skipped == Count(m.rows, c, SKIPPED) + SettledRows(l.rows, c)
            && (m.campaigns[c].skipped == Count(m.rows, c, SKIPPED) <==> SettledRows(l.rows, c) == 0)
            && m.campaigns[c].carried == SettledRows(l.rows, c)
            && m.campaigns[c].queued == Count(m.rows, c, {Pending})
            && m.campaigns[c].total == |set q | q in m.rows && m.rows[q].campaign == c|
  {
    var rows := l.rows + added;
    forall q: int ensures q in RowsIn(rows, c, ANY) <==> q in rows && rows[q].campaign == c {
      if q in rows { AnyStatus(rows[q].status); }
    }
    assert RowsIn(rows, c, ANY) == set q | q in rows && rows[q].campaign == c;
    SettledUntouched(l.rows, added, c, SENT_LIKE);
    SettledUntouched(l.rows, added, c, {Failed});
    CountPartition(l.rows + added, c);
  }

  /** The failing input: one row sent and one pending, no contact left to add, and the recount finds one skipped. */
  lemma RecountGoesWrong() returns (l: Ledger)
    ensures Sound(l) && 1 in l.campaigns && l.campaigns[1].status == Sending && Snapshot(l, map[], {}, 1, map[])
    ensures var m := AddRows(l, 1, map[]);
            && m.campaigns[1].skipped == 1 && Count(m.rows, 1, SKIPPED) == 0
            && l.campaigns[1].skipped == 0
  {
    var sent := Row(1, 7, "a@b.example", None, Sent, Some("token"), None, None);
    var pending := Row(1, 8, "c@d.example", None, Pending, None, None, None);
    var rows := map[1 := sent, 2 := pending];
    l := Ledger(rows, map[1 := Campaign(Sending, None, None, {3}, Some("t"), None, 2, 2, 1, 0, 0, 0, 0, 0)], map[], []);
    CountIn(rows, 1, SENT_LIKE, {1});
    CountIn(rows, 1, {Failed}, {});
    CountIn(rows, 1, SKIPPED, {});
    CountIn(rows, 1, ANY, {1, 2});
    CountIn(rows, 1, {Pending}, {2});
    CountIn(rows, 1, {Delivered}, {});
    CountIn(rows, 1, {Bounced}, {});
    assert rows + map[] == rows;
  }

  lemma CountIn(rows: map<int, Row>, c: int, ss: set<RowStatus>, found: set<int>)
    requires forall r :: r in found <==> r in rows && rows[r].campaign == c && rows[r].status in ss
    ensures Count(rows, c, ss) == |found|
  {
    forall r: int ensures r in RowsIn(rows, c, ss) <==> r in found {}
    assert RowsIn(rows, c, ss) == found;
  }

  lemma SettledUntouched(rows: map<int, Row>, added: map<int, Row>, c: int, ss: set<RowStatus>)
    requires added.Keys !! rows.Keys
    requires forall r | r in added :: added[r].status == Pending || added[r].status in SKIPPED
    requires ss <= SENT_LIKE + {Failed}
    ensures Count(rows + added, c, ss) == Count(rows, c, ss)
  {
    CountUnion(rows, added, c, ss);
    NoneIn(added, c, ss);
  }

  lemma AddRowsKeepsCampaign(l: Ledger, c: int, added: map<int, Row>, d: int)
    requires c in l.campaigns && l.campaigns[c].status == Sending
    requires added.Keys !! l.rows.Keys
    requires forall r | r in added ::
               added[r].campaign == c && (added[r].status == Pending || added[r].status in SKIPPED)
    requires d in l.campaigns && CampaignSound(l, d)
    ensures CampaignSound(AddRows(l, c, added), d)
  {
    if d == c {
      RecountBalances(l.rows, added, c, l.campaigns[c]);
    } else {
      CampaignUntouchedByRows(l.rows, added, d, l.campaigns[d]);
    }
  }

  lemma AddRowsKeepsSound(l: Ledger, contacts: map<int, Contact>, ineligible: set<int>, c: int, added: map<int, Row>)
    requires Sound(l) && c in l.campaigns && l.campaigns[c].status == Sending
    requires Snapshot(l, contacts, ineligible, c, added)
    ensures Sound(AddRows(l, c, added)) && Evolves(l, AddRows(l, c, added))
  {
    var m := AddRows(l, c, added);
    forall d | d in m.campaigns ensures CampaignSound(m, d) { AddRowsKeepsCampaign(l, c, added, d); }
    forall q | q in m.rows ensures RowSound(m, q) {
      if q in l.rows { assert RowSound(l, q); }
    }
    assert OneRowEach(m.rows) by { NewRowsAreNew(l, contacts, ineligible, c, added); }
  }

  lemma NewRowsAreNew(l: Ledger, contacts: map<int, Contact>, ineligible: set<int>, c: int, added: map<int, Row>)
    requires OneRowEach(l.rows) && c in l.campaigns && Snapshot(l, contacts, ineligible, c, added)
    ensures OneRowEach(l.rows + added)
  {
    var rows := l.rows + added;
    forall q, r | q in rows && r in rows && rows[q].campaign == rows[r].campaign && rows[q].contact == rows[r].contact
      ensures q == r
    {
      assert q in added ==> Due(l, contacts, c, added[q].contact);
      assert r in added ==> Due(l, contacts, c, added[r].contact);
    }
  }

  /** After a materialization no contact is owed a row any more. */
  lemma NothingLeftDue(l: Ledger, contacts: map<int, Contact>, ineligible: set<int>, c: int, added: map<int, Row>,
                       k: int)
    requires c in l.campaigns && Snapshot(l, contacts, ineligible, c, added)
    ensures !Due(AddRows(l, c, added), contacts, c, k)
  {
    var m := AddRows(l, c, added);
    if Due(l, contacts, c, k) {
      var q :| q in added && added[q].contact == k;
      assert m.rows[q] == added[q];
    } else if exists q :: q in l.rows && l.rows[q].campaign == c && l.rows[q].contact == k {
      var q :| q in l.rows && l.rows[q].campaign == c && l.rows[q].contact == k;
      assert m.rows[q] == l.rows[q];
    }
  }

  /** Materializing twice on the same contacts adds nothing the second time, whatever the frequency rule now says. */
  lemma MaterializeTwice(l: Ledger, contacts: map<int, Contact>, ineligible: set<int>, c: int,
                         added: map<int, Row>, later: set<int>, again: map<int, Row>)
    requires c in l.campaigns && Snapshot(l, contacts, ineligible, c, added)
    requires Snapshot(AddRows(l, c, added), contacts, later, c, again)
    ensures again == map[]
  {
    forall r | r in again ensures false {
      NothingLeftDue(l, contacts, ineligible, c, added, again[r].contact);
    }
  }

  /** Who gets a row: the active contacts of the campaign's lists that have none; and the row is a new one. */
  lemma MaterializedFor(l: Ledger, contacts: map<int, Contact>, ineligible: set<int>, c: int, added: map<int, Row>,
                        k: int)
    requires c in l.campaigns && Snapshot(l, contacts, ineligible, c, added)
    ensures (exists r :: r in added && added[r].contact == k) <==>
              k in contacts && contacts[k].status == Active && contacts[k].list in l.campaigns[c].lists
              && !exists q :: q in l.rows && l.rows[q].campaign == c && l.rows[q].contact == k
    ensures forall r | r in added && added[r].contact == k ::
              r !in l.rows && added[r].campaign == c && added[r].pool == l.campaigns[c].pool
              && added[r].token.None? && added[r].error.None? && added[r].lastEvent.None?
  {
    if Due(l, contacts, c, k) {
      assert exists r :: r in added && added[r].contact == k;
    }
  }

  /** What one materialization did, contact by contact. */
  lemma MaterializePriorities(l: Ledger, contacts: map<int, Contact>, ineligible: set<int>, c: int,
                              added: map<int, Row>, k: int)
    requires c in l.campaigns && Snapshot(l, contacts, ineligible, c, added) && Due(l, contacts, c, k)
    ensures exists r :: r in added && AddRows(l, c, added).rows[r].contact == k && added[r].email == contacts[k].email
                 && (added[r].status == SkippedSuppressed <==> contacts[k].email in l.suppressions)
                 && (added[r].status == SkippedFrequency <==> contacts[k].email !in l.suppressions && k in ineligible)
                 && (added[r].status == Pending <==> contacts[k].email !in l.suppressions && k !in ineligible)
                 && forall q | q in AddRows(l, c, added).rows
                               && AddRows(l, c, added).rows[q].campaign == c
                               && AddRows(l, c, added).rows[q].contact == k :: q == r
  {
    var r :| r in added && added[r].contact == k;
    assert AddRows(l, c, added).rows[r] == added[r];
  }

  lemma StatusChangeKeepsSound(l: Ledger, c: int, status: CampaignStatus)
    requires Sound(l) && c in l.campaigns
    requires status == Completed ==> Count(l.rows, c, {Pending}) == 0
    ensures Sound(SetStatus(l, c, status)) && Evolves(l, SetStatus(l, c, status))
  {
    var m := SetStatus(l, c, status);
    forall d | d in m.campaigns ensures CampaignSound(m, d) { assert CampaignSound(l, d); }
    forall q | q in m.rows ensures RowSound(m, q) { assert RowSound(l, q); }
  }

  /** Only the suppression list grew. */
  lemma SuppressionKeepsSound(l: Ledger, m: Ledger)
    requires Sound(l) && m == l.(suppressions := m.suppressions)
    requires forall e | e in l.suppressions :: e in m.suppressions && m.suppressions[e] == l.suppressions[e]
    ensures Sound(m) && Evolves(l, m)
  {
    forall q | q in m.rows ensures RowSound(m, q) { assert RowSound(l, q); }
    forall d | d in m.campaigns ensures CampaignSound(m, d) { assert CampaignSound(l, d); }
  }
}
