/**
 The transactions of the pipeline as they run: methods that update the tables in place, each proved to commit the
 transaction that the protocol takes as one step. What a query returns in no fixed order is a parameter.
 */
module Database {
  import opened Text
  import opened RecipientLedger
  import opened Webhook
  import opened Protocol
  import EventEffects

  const REPUMP_TTL: int := 900_000_000
  const STALL_AFTER: int := 900_000_000

  class Tables {
    var rows: map<int, Row>
    var campaigns: map<int, Campaign>
    var suppressions: map<string, Suppression>
    var log: seq<LogEntry>
    var contacts: map<int, Contact>
    var lastSent: map<(int, int), int>
    var nextRow: int

    /** Row ids are handed out in increasing order. */
    ghost predicate Valid()
      reads this
    {
      forall r | r in rows :: r < nextRow
    }

    ghost function Books(): Ledger
      reads this
    {
      Ledger(rows, campaigns, suppressions, log)
    }

    constructor (contacts: map<int, Contact>, suppressions: map<string, Suppression>)
      ensures Valid() && Books() == Ledger(map[], map[], suppressions, []) && Sound(Books())
      ensures this.contacts == contacts && lastSent == map[]
    {
      this.rows, this.campaigns, this.log := map[], map[], [];
      this.suppressions, this.contacts, this.lastSent, this.nextRow := suppressions, contacts, map[], 0;
    }

    // ----- Counters and completion -----

    method BumpCampaign(c: int, which: Counter)
      modifies this`campaigns
      ensures Books() == Bump(old(Books()), c, which)
    {
      if c in campaigns {
        campaigns := campaigns[c := Bumped(campaigns[c], which)];
      }
    }

    method PendingCount(c: int) returns (n: nat)
      ensures n == Count(rows, c, {Pending})
    {
      n := Count(rows, c, {Pending});
    }

    method MaybeFinalizeCampaign(c: int)
      modifies this`campaigns
      ensures Books() == MaybeFinalize(old(Books()), c)
    {
      var n := PendingCount(c);
      if n == 0 && c in campaigns {
        var campaign := campaigns[c];
        if campaign.status == Sending {
          campaigns := campaigns[c := campaign.(status := Completed)];
        }
      }
    }

    // ----- Suppression -----

    method SuppressSync(email: string, reason: Reason, detail: Option<string>, updateContact: bool)
      returns (newlyAdded: bool)
      modifies this`suppressions, this`contacts
      ensures suppressions == Suppress(old(suppressions), email, Suppression(reason, detail))
      ensures contacts == if updateContact then MarkContact(old(contacts), email, reason) else old(contacts)
      ensures newlyAdded <==> !IsSuppressed(old(suppressions), email)
      ensures IsSuppressed(suppressions, email)
      ensures contacts.Keys == old(contacts).Keys && forall k | k in contacts ::
                contacts[k] == if updateContact && NormalizeEmail(email) == Some(old(contacts)[k].email)
                               then old(contacts)[k].(status := if reason == Complaint then Complained
                                                                else if reason == HardBounce || reason == Invalid
                                                                then ContactBounced else Unsubscribed)
                               else old(contacts)[k]
    {
      newlyAdded := false;
      var n := NormalizeEmail(email);
      if n.None? {
        assert updateContact ==> MarkContact(contacts, email, reason) == contacts;
        return;
      }
      if n.value !in suppressions {
        suppressions := suppressions[n.value := Suppression(reason, detail)];
        newlyAdded := true;
      }
      if updateContact {
        contacts := map k | k in contacts ::
          if contacts[k].email == n.value then contacts[k].(status := StatusFor(reason)) else contacts[k];
      }
    }

    // ----- The transactions of send_one -----

    method Phase1(r: int, cap: int, defers: bool) returns (d: Decision)
      modifies this`rows, this`campaigns
      ensures d == Validate(old(Books()), r, cap, defers)
      ensures Books() == AfterPhase1(old(Books()), r, d)
    {
      if r !in rows { return Missing; }
      var row := rows[r];
      if row.status != Pending { return AlreadyProcessed; }
      if row.campaign !in campaigns { return NoCampaign; }
      var campaign := campaigns[row.campaign];
      if campaign.status == Paused { return PausedCampaign; }
      if campaign.status != Sending { return NotSending(campaign.status); }
      if IsSuppressed(suppressions, row.email) {
        rows := rows[r := row.(status := SkippedSuppressed)];
        BumpCampaign(row.campaign, SkippedCount);
        MaybeFinalizeCampaign(row.campaign);
        return SuppressedNow;
      }
      if campaign.template.None? {
        rows := rows[r := row.(status := Failed, error := Some("campaign has no template"))];
        BumpCampaign(row.campaign, FailedCount);
        MaybeFinalizeCampaign(row.campaign);
        return NoTemplate;
      }
      d := Proceed(Job(row.campaign, campaign.parent, row.contact, row.email,
                       FirstTruthy(row.pool, campaign.pool, "default"), cap, defers));
    }

    /** `c` is the campaign id kept from Phase 1; the column never changes. */
    method HardStop(r: int, c: int)
      requires r in rows ==> rows[r].campaign == c
      modifies this`rows, this`campaigns
      ensures Books() == SkipForCap(old(Books()), r)
    {
      if r in rows && rows[r].status == Pending {
        rows := rows[r := rows[r].(status := SkippedCap)];
        BumpCampaign(c, SkippedCount);
        MaybeFinalizeCampaign(c);
      }
    }

    method PermanentFailure(r: int, c: int, detail: string)
      requires r in rows ==> rows[r].campaign == c
      modifies this`rows, this`campaigns
      ensures Books() == FailPermanently(old(Books()), r, detail)
    {
      if r in rows && rows[r].status == Pending {
        rows := rows[r := rows[r].(status := Failed, error := Some("permanent: " + detail))];
        BumpCampaign(c, FailedCount);
        MaybeFinalizeCampaign(c);
      }
    }

    method RecordSend(parent: int, contact: int, now: int)
      modifies this`lastSent
      ensures lastSent == old(lastSent)[(parent, contact) := now]
    {
      lastSent := lastSent[(parent, contact) := now];
    }

    /** Phase 4; `found` is false when the row has disappeared and the caller leaves without counting the send. */
    method PersistSuccess(r: int, job: Job, token: string, now: int) returns (found: bool)
      requires r in rows ==> rows[r].campaign == job.campaign
      modifies this`rows, this`campaigns, this`lastSent
      ensures found <==> r in old(rows)
      ensures Books() == CommitSend(old(Books()), r, job.pool, token)
      ensures lastSent == if StillPending(old(Books()), r) && job.freq.Some?
                          then old(lastSent)[(job.freq.value, job.contact) := now] else old(lastSent)
    {
      found := r in rows;
      if found && rows[r].status == Pending {
        rows := rows[r := rows[r].(status := Sent, token := Some(token), pool := Some(job.pool))];
        BumpCampaign(job.campaign, SentCount);
        if job.freq.Some? {
          RecordSend(job.freq.value, job.contact, now);
        }
        MaybeFinalizeCampaign(job.campaign);
      }
    }

    // ----- Materialization -----

    /** `found` lists the active contacts of the pooled lists, in the order the join returns them. */
    method MaterializeCampaign(c: int, found: seq<int>, now: int, interval: int)
      returns (created: nat, skipped: nat, freqSkipped: nat, ghost added: map<int, Row>)
      requires Valid()
      requires c in campaigns ==>
                 forall k :: k in found <==>
                   k in contacts && contacts[k].status == Active && contacts[k].list in campaigns[c].lists
      modifies this`rows, this`campaigns, this`nextRow
      ensures Valid()
      ensures Books() == Protocol.MaterializeCampaign(old(Books()), c, added)
      ensures IsSending(old(Books()), c) ==>
                Snapshot(old(Books()), contacts, IneligibleContacts(lastSent, old(campaigns)[c].parent, now, interval),
                         c, added)
      ensures Tallied(added, c, created, skipped, freqSkipped)
      ensures c in old(campaigns) && old(campaigns)[c].status == Sending && old(campaigns)[c].lists == {} ==>
                rows == old(rows) && campaigns == old(campaigns)[c := old(campaigns)[c].(status := CampaignFailed)]
      ensures !IsSending(old(Books()), c) ==> rows == old(rows) && campaigns == old(campaigns)
    {
      created, skipped, freqSkipped, added := 0, 0, 0, map[];
      if c !in campaigns || campaigns[c].status != Sending || campaigns[c].lists == {} {
        TallyNone(c);
        if c in campaigns && campaigns[c].status == Sending {
          campaigns := campaigns[c := campaigns[c].(status := CampaignFailed)];
        }
        return;
      }
      var ineligible := IneligibleContacts(lastSent, campaigns[c].parent, now, interval);
      created, skipped, freqSkipped, added := AddMissingRows(c, found, ineligible);
      Recount(c);
    }

    /** The counters of the campaign are taken from its rows. */
    method Recount(c: int)
      requires c in campaigns
      modifies this`campaigns
      ensures campaigns == old(campaigns)[c := Recounted(rows, c, old(campaigns)[c])]
    {
      var total: int, pending: int := Count(rows, c, ANY), Count(rows, c, {Pending});
      campaigns := campaigns[c := campaigns[c].(total := total, skipped := total - pending, queued := pending,
                                                carried := Count(rows, c, SENT_LIKE) + Count(rows, c, {Failed}))];
    }

    /** Classify one contact and add its row: suppressed first, then the frequency rule, else pending. */
    method InsertRowFor(c: int, k: int, ineligible: set<int>) returns (id: int, status: RowStatus)
      requires Valid() && c in campaigns && k in contacts
      modifies this`rows, this`nextRow
      ensures Valid() && id !in old(rows)
      ensures rows == old(rows)[id := NewRow(old(Books()), ineligible, c, k, contacts[k])]
      ensures status == rows[id].status
    {
      if contacts[k].email in suppressions {
        status := SkippedSuppressed;
      } else if k in ineligible {
        status := SkippedFrequency;
      } else {
        status := Pending;
      }
      id := nextRow;
      rows := rows[id := Row(c, k, contacts[k].email, campaigns[c].pool, status, None, None, None)];
      nextRow := nextRow + 1;
    }

    /** One pass of that loop; `before` is the ledger it started from, `seen` the contacts before `k`. */
    method AddRowFor(c: int, k: int, ineligible: set<int>, existing: set<int>, created: nat, skipped: nat,
                     freqSkipped: nat,
                     ghost before: Ledger, ghost seen: seq<int>, ghost added: map<int, Row>)
      returns (listed: set<int>, created': nat, skipped': nat, freqSkipped': nat, ghost added': map<int, Row>)
      requires Valid() && c in campaigns && Books() == before.(rows := before.rows + added)
      requires k in contacts && contacts[k].status == Active && contacts[k].list in campaigns[c].lists
      requires Listed(before, contacts, ineligible, c, seen, added, existing)
      requires Tallied(added, c, created, skipped, freqSkipped)
      modifies this`rows, this`nextRow
      ensures Valid() && rows == before.rows + added'
      ensures Listed(before, contacts, ineligible, c, seen + [k], added', listed)
      ensures Tallied(added', c, created', skipped', freqSkipped')
    {
      listed, created', skipped', freqSkipped', added' := existing, created, skipped, freqSkipped, added;
      if k in existing { return; }
      var id, status := InsertRowFor(c, k, ineligible);
      ListOneMore(before, contacts, ineligible, c, seen, added, existing, k, id);
      TallyOneMore(added, c, id, rows[id], created, skipped, freqSkipped);
      WriteToSum(before.rows, added, id, rows[id]);
      listed, added' := existing + {k}, added[id := rows[id]];
      if status == SkippedSuppressed {
        skipped' := skipped + 1;
      } else if status == SkippedFrequency {
        freqSkipped' := freqSkipped + 1;
      } else {
        created' := created + 1;
      }
    }

    /** The loop of the materialization: a row for every listed contact that has none yet. */
    method AddMissingRows(c: int, found: seq<int>, ineligible: set<int>)
      returns (created: nat, skipped: nat, freqSkipped: nat, ghost added: map<int, Row>)
      requires Valid() && c in campaigns
      requires forall k :: k in found <==>
                 k in contacts && contacts[k].status == Active && contacts[k].list in campaigns[c].lists
      modifies this`rows, this`nextRow
      ensures Valid()
      ensures Snapshot(old(Books()), contacts, ineligible, c, added) && rows == old(rows) + added
      ensures Tallied(added, c, created, skipped, freqSkipped)
    {
      created, skipped, freqSkipped, added := 0, 0, 0, map[];
      TallyNone(c);
      var existing := ContactsOn(rows, c);
      ghost var before := Books();
      ListedNone(before, contacts, ineligible, c);
      var i := 0;
      while i < |found|
        invariant 0 <= i <= |found|
        invariant Valid() && rows == before.rows + added
        invariant Listed(before, contacts, ineligible, c, found[..i], added, existing)
        invariant Tallied(added, c, created, skipped, freqSkipped)
      {
        assert found[i] in found && found[..i + 1] == found[..i] + [found[i]];
        existing, created, skipped, freqSkipped, added :=
          AddRowFor(c, found[i], ineligible, existing, created, skipped, freqSkipped, before, found[..i], added);
        i := i + 1;
      }
      assert found[..i] == found;
      ListedAll(before, contacts, ineligible, c, found, added, existing);
    }

    // ----- Scheduler -----

    /** `due` is the answer of the query for scheduled campaigns whose time has come. */
    method DispatchDueCampaigns(now: int, due: seq<int>) returns (ids: seq<int>)
      requires forall c :: c in due <==> c in campaigns && campaigns[c].status == Scheduled
                                         && campaigns[c].scheduledAt.Some? && campaigns[c].scheduledAt.value <= now
      modifies this`campaigns
      ensures Books() == DispatchDue(old(Books()), now) && ids == due
      ensures campaigns.Keys == old(campaigns).Keys && forall c | c in campaigns ::
                campaigns[c] == if c in due then old(campaigns)[c].(status := Sending) else old(campaigns)[c]
    {
      ids := due;
      ghost var before := campaigns;
      assert forall c | c in due :: c in before;
      for i := 0 to |due|
        invariant campaigns.Keys == before.Keys
        invariant forall c | c in campaigns ::
                    campaigns[c] == if c in due[..i] then before[c].(status := Sending) else before[c]
      {
        assert due[i] in due && due[i] in before && due[..i + 1] == due[..i] + [due[i]];
        campaigns := campaigns[due[i] := campaigns[due[i]].(status := Sending)];
      }
      assert due[..|due|] == due;
      forall c | c in campaigns ensures campaigns[c] == DispatchDue(old(Books()), now).campaigns[c] {
        assert c in due <==> c in old(campaigns) && old(campaigns)[c].status == Scheduled
                             && old(campaigns)[c].scheduledAt.Some? && old(campaigns)[c].scheduledAt.value <= now;
      }
      assert campaigns == DispatchDue(old(Books()), now).campaigns;
    }

    /**
     One sweep over the campaigns found sending: those with nothing pending are completed, stalled ones are enqueued
     again unless that happened within the last 15 minutes. `repumps` maps a campaign to the expiry of its marker.
     */
    method FinalizeAndRepump(sending: seq<int>, lastActivity: map<int, int>, now: int, repumps: map<int, int>)
      returns (finalized: seq<int>, repumped: seq<int>, marks: map<int, int>)
      modifies this`campaigns
      ensures campaigns.Keys == old(campaigns).Keys
      ensures forall c | c in campaigns ::
                campaigns[c] == if c in sending && Count(rows, c, {Pending}) == 0 && old(campaigns)[c].status == Sending
                                then old(campaigns)[c].(status := Completed) else old(campaigns)[c]
      ensures forall c :: c in finalized <==>
                c in sending && c in campaigns && Count(rows, c, {Pending}) == 0 && old(campaigns)[c].status == Sending
      ensures forall c :: c in repumped <==>
                && c in sending && Count(rows, c, {Pending}) > 0
                && (c in lastActivity ==> lastActivity[c] < now - STALL_AFTER)
                && !(c in repumps && now < repumps[c])
      ensures forall i, j | 0 <= i < j < |repumped| :: repumped[i] != repumped[j]
      ensures forall c :: c in repumped <==>
                c in marks && marks[c] == now + REPUMP_TTL && !(c in repumps && now < repumps[c])
      ensures forall c | c !in repumped :: (c in marks <==> c in repumps) && (c in repumps ==> marks[c] == repumps[c])
    {
      finalized, repumped, marks := [], [], repumps;
      ghost var before := campaigns;
      for i := 0 to |sending|
        invariant campaigns.Keys == before.Keys
        invariant forall c | c in campaigns ::
                    campaigns[c] ==
                    if c in sending[..i] && Count(rows, c, {Pending}) == 0 && before[c].status == Sending
                    then before[c].(status := Completed) else before[c]
        invariant forall c :: c in finalized <==>
                    c in sending[..i] && c in campaigns && Count(rows, c, {Pending}) == 0 && before[c].status == Sending
        invariant forall c :: c in repumped <==>
                    c in sending[..i] && Count(rows, c, {Pending}) > 0
                    && (c in lastActivity ==>
                         lastActivity[c] < now - STALL_AFTER) && !(c in repumps && now < repumps[c])
        invariant forall a, b | 0 <= a < b < |repumped| :: repumped[a] != repumped[b]
        invariant forall c | c in repumped :: c in marks && marks[c] == now + REPUMP_TTL
        invariant forall c | c !in repumped ::
                    (c in marks <==> c in repumps) && (c in repumps ==> marks[c] == repumps[c])
      {
        assert sending[..i + 1] == sending[..i] + [sending[i]];
        var done, pumped;
        done, pumped, marks := SweepOne(sending[i], lastActivity, now, marks);
        if done { finalized := finalized + [sending[i]]; }
        if pumped { repumped := repumped + [sending[i]]; }
      }
      assert sending[..|sending|] == sending;
    }

    /** One campaign of the sweep; `SET key NX EX 900` claims the right to enqueue its rows again. */
    method SweepOne(c: int, lastActivity: map<int, int>, now: int, repumps: map<int, int>)
      returns (done: bool, pumped: bool, marks: map<int, int>)
      modifies this`campaigns
      ensures done <==> Count(rows, c, {Pending}) == 0 && c in old(campaigns) && old(campaigns)[c].status == Sending
      ensures campaigns == if done then old(campaigns)[c := old(campaigns)[c].(status := Completed)] else old(campaigns)
      ensures pumped <==> Count(rows, c, {Pending}) > 0 && (c in lastActivity ==> lastActivity[c] < now - STALL_AFTER)
                          && !(c in repumps && now < repumps[c])
      ensures marks == if pumped then repumps[c := now + REPUMP_TTL] else repumps
    {
      done, pumped, marks := false, false, repumps;
      var pending := PendingCount(c);
      if pending == 0 {
        if c in campaigns && campaigns[c].status == Sending {
          campaigns := campaigns[c := campaigns[c].(status := Completed)];
          done := true;
        }
      } else {
        var stalled := c in lastActivity ==> lastActivity[c] < now - STALL_AFTER;
        if stalled && !(c in repumps && now < repumps[c]) {
          marks := repumps[c := now + REPUMP_TTL];
          pumped := true;
        }
      }
    }

    // ----- Operators -----

    method Schedule(c: int, at: int, valid: bool)
      modifies this`campaigns
      ensures Books() == ScheduleCampaign(old(Books()), c, at, valid)
      ensures campaigns == if valid && c in old(campaigns)
                           then old(campaigns)[c := old(campaigns)[c].(status := Scheduled, scheduledAt := Some(at))]
                           else old(campaigns)
    {
      if valid && c in campaigns {
        campaigns := campaigns[c := campaigns[c].(scheduledAt := Some(at))];
        campaigns := campaigns[c := campaigns[c].(status := Scheduled)];
      }
    }

    method Pause(c: int) returns (ok: bool)
      modifies this`campaigns
      ensures Books() == PauseCampaign(old(Books()), c)
      ensures ok <==> c in old(campaigns) && old(campaigns)[c].status in {Sending, Scheduled}
      ensures campaigns == if ok then old(campaigns)[c := old(campaigns)[c].(status := Paused)] else old(campaigns)
    {
      if c !in campaigns || campaigns[c].status !in {Sending, Scheduled} { return false; }
      campaigns := campaigns[c := campaigns[c].(status := Paused)];
      ok := true;
    }

    method Resume(c: int) returns (ok: bool)
      modifies this`campaigns
      ensures Books() == ResumeCampaign(old(Books()), c)
      ensures ok <==> c in old(campaigns) && old(campaigns)[c].status == Paused
      ensures campaigns == if ok then old(campaigns)[c := old(campaigns)[c].(status := Sending)] else old(campaigns)
    {
      if c !in campaigns || campaigns[c].status != Paused { return false; }
      campaigns := campaigns[c := campaigns[c].(status := Sending)];
      ok := true;
    }

    method Cancel(c: int) returns (ok: bool)
      modifies this`campaigns
      ensures Books() == CancelCampaign(old(Books()), c)
      ensures ok <==> c in old(campaigns) && old(campaigns)[c].status !in {Completed, Cancelled}
      ensures campaigns == if ok then old(campaigns)[c := old(campaigns)[c].(status := Cancelled)] else old(campaigns)
    {
      if c !in campaigns || campaigns[c].status in {Completed, Cancelled} { return false; }
      campaigns := campaigns[c := campaigns[c].(status := Cancelled)];
      ok := true;
    }

    // ----- Webhooks -----

    /** `hit` is the answer of the lookup by message token. */
    method ApplyEvent(e: Event, hit: Option<int>) returns (v: Verdict)
      requires LawfulHit(Books(), e, hit)
      modifies this`rows, this`campaigns, this`suppressions, this`log, this`contacts
      ensures v == VerdictOf(old(Books()), e, hit)
      ensures Books() == Reconcile(old(Books()), e, hit)
      ensures contacts == ContactsAfter(old(Books()), old(contacts), e, hit)
      ensures EventEffects.Does(old(Books()), old(contacts), e, hit, Books(), contacts)
      ensures EventEffects.Answers(old(Books()), e, hit, v)
    {
      EventEffects.EventDoes(Books(), contacts, e, hit);
      EventEffects.VerdictAnswers(Books(), e, hit);
      if Truthy(e.uuid) && exists i | 0 <= i < |log| :: log[i].uuid == e.uuid {
        return WasDuplicate;
      }
      if hit.None? {
        if (IsFailure(e) || IsComplaint(e)) && Truthy(e.recipient) {
          if ClassifyBounce(e) {
            var _ := SuppressSync(e.recipient.value, ReasonOf(e), e.detail, true);
          }
        }
        return WasUnmatched;
      }
      v := ApplyToRow(e, hit.value);
    }

    /** The part of `apply_event` that follows the match: log the event, then act on the row. */
    method ApplyToRow(e: Event, r: int) returns (v: Verdict)
      requires LawfulHit(Books(), e, Some(r)) && !IsDuplicate(Books(), e)
      modifies this`rows, this`campaigns, this`suppressions, this`log, this`contacts
      ensures v == VerdictOf(old(Books()), e, Some(r))
      ensures Books() == Reconcile(old(Books()), e, Some(r))
      ensures contacts == ContactsAfter(old(Books()), old(contacts), e, Some(r))
    {
      MatchedEvent(Books(), contacts, e, r);
      v := ActOnRow(e, r);
    }

    method ActOnRow(e: Event, r: int) returns (v: Verdict)
      requires r in rows
      modifies this`rows, this`campaigns, this`suppressions, this`log, this`contacts
      ensures v == if IsDelivery(e) then WasDelivered else if !IsFailure(e) && !IsComplaint(e) then WasIgnored
                   else if IsDeferral(e) then WasDeferred else if IsComplaint(e) then WasComplaint else WasBounced
      ensures Books() == Recorded(old(Books()), e, r).(suppressions := suppressions)
      ensures var email := old(rows)[r].email;
              if Punishes(e)
              then suppressions == Suppress(old(suppressions), email, Suppression(ReasonOf(e), e.detail))
                   && contacts == MarkContact(old(contacts), email, ReasonOf(e))
              else suppressions == old(suppressions) && contacts == old(contacts)
    {
      var row := rows[r];
      log := log + [LogEntry(r, e.kind, e.status, e.uuid, e.at)];
      ghost var logged := Books();
      rows := rows[r := row.(lastEvent := Some(e.at))];
      MovedTwice(logged, r, rows[r], RowAfter(row, e));
      if IsDelivery(e) {
        MarkDelivered(r);
        return WasDelivered;
      }
      if IsFailure(e) || IsComplaint(e) {
        if IsDeferral(e) { return WasDeferred; }
        MarkBounced(e, r);
        SuppressRecipient(e, row.email);
        return if IsComplaint(e) then WasComplaint else WasBounced;
      }
      v := WasIgnored;
    }

    /** A real bounce or complaint suppresses the address of its row. */
    method SuppressRecipient(e: Event, email: string)
      modifies this`suppressions, this`contacts
      ensures suppressions == if ClassifyBounce(e)
                              then Suppress(old(suppressions), email, Suppression(ReasonOf(e), e.detail))
                              else old(suppressions)
      ensures contacts == if ClassifyBounce(e) then MarkContact(old(contacts), email, ReasonOf(e)) else old(contacts)
    {
      if ClassifyBounce(e) {
        var _ := SuppressSync(email, ReasonOf(e), e.detail, true);
      }
    }

    method MarkDelivered(r: int)
      requires r in rows
      modifies this`rows, this`campaigns
      ensures Books() == Moved(old(Books()), r, old(rows)[r].(status := Delivered))
    {
      if rows[r].status != Delivered {
        var c := rows[r].campaign;
        rows := rows[r := rows[r].(status := Delivered)];
        BumpCampaign(c, DeliveredCount);
      }
    }

    /** A real bounce or complaint: mark the row, count it once. */
    method MarkBounced(e: Event, r: int)
      requires r in rows
      modifies this`rows, this`campaigns
      ensures Books() == Moved(old(Books()), r, old(rows)[r].(
                status := Bounced,
                error := if old(rows)[r].error.None? && Truthy(e.detail) then Some(Clip(e.detail.value))
                         else old(rows)[r].error))
    {
      var row := rows[r];
      var alreadyBounced := row.status == Bounced;
      rows := rows[r := rows[r].(status := Bounced)];
      if row.error.None? && Truthy(e.detail) {
        rows := rows[r := rows[r].(error := Some(Clip(e.detail.value)))];
      }
      if !alreadyBounced {
        BumpCampaign(row.campaign, BouncedCount);
      }
    }
  }

  /** The contacts in `seen` have their row: `existing` are the contacts of the old rows of `c` and of `added`. */
  ghost predicate Listed(l: Ledger, contacts: map<int, Contact>, ineligible: set<int>, c: int, seen: seq<int>,
                         added: map<int, Row>, existing: set<int>)
    requires c in l.campaigns
  {
    && added.Keys !! l.rows.Keys
    && (forall r | r in added :: Due(l, contacts, c, added[r].contact)
                                 && added[r] == NewRow(l, ineligible, c, added[r].contact, contacts[added[r].contact]))
    && (forall r, q | r in added && q in added && added[r].contact == added[q].contact :: r == q)
    && (forall r | r in l.rows && l.rows[r].campaign == c :: l.rows[r].contact in existing)
    && (forall r | r in added :: added[r].contact in existing)
    && (forall k | k in existing && Due(l, contacts, c, k) :: exists r :: r in added && added[r].contact == k)
    && (forall k | k in seen :: k in existing)
  }

  function ContactsOn(rows: map<int, Row>, c: int): set<int> {
    set r | r in rows && rows[r].campaign == c :: rows[r].contact
  }

  lemma ListedNone(l: Ledger, contacts: map<int, Contact>, ineligible: set<int>, c: int)
    requires c in l.campaigns
    ensures Listed(l, contacts, ineligible, c, [], map[], ContactsOn(l.rows, c))
  {
  }

  lemma ListOneMore(l: Ledger, contacts: map<int, Contact>, ineligible: set<int>, c: int, seen: seq<int>,
                    added: map<int, Row>, existing: set<int>, k: int, id: int)
    requires c in l.campaigns && Listed(l, contacts, ineligible, c, seen, added, existing)
    requires k !in existing && id !in l.rows && id !in added
    requires k in contacts && contacts[k].status == Active && contacts[k].list in l.campaigns[c].lists
    ensures Listed(l, contacts, ineligible, c, seen + [k], added[id := NewRow(l, ineligible, c, k, contacts[k])],
                   existing + {k})
  {
    var more := added[id := NewRow(l, ineligible, c, k, contacts[k])];
    assert Due(l, contacts, c, k);
    forall q | q in existing + {k} && Due(l, contacts, c, q) ensures exists r :: r in more && more[r].contact == q {
      if q == k {
        assert more[id].contact == k;
      } else {
        var r :| r in added && added[r].contact == q;
        assert more[r].contact == q;
      }
    }
  }

  lemma WriteToSum(rows: map<int, Row>, added: map<int, Row>, id: int, row: Row)
    ensures (rows + added)[id := row] == rows + added[id := row]
  {
  }

  lemma ListedAll(l: Ledger, contacts: map<int, Contact>, ineligible: set<int>, c: int, seen: seq<int>,
                  added: map<int, Row>, existing: set<int>)
    requires c in l.campaigns && Listed(l, contacts, ineligible, c, seen, added, existing)
    requires forall k | k in contacts && contacts[k].status == Active && contacts[k].list in l.campaigns[c].lists ::
               k in seen
    ensures Snapshot(l, contacts, ineligible, c, added)
  {
  }

  /** The three tallies a materialization reports. */
  ghost predicate Tallied(added: map<int, Row>, c: int, created: int, skipped: int, freqSkipped: int) {
    && created == Count(added, c, {Pending})
    && skipped == Count(added, c, {SkippedSuppressed})
    && freqSkipped == Count(added, c, {SkippedFrequency})
  }

  lemma TallyNone(c: int)
    ensures Tallied(map[], c, 0, 0, 0)
  {
    NoneIn(map[], c, {Pending});
    NoneIn(map[], c, {SkippedSuppressed});
    NoneIn(map[], c, {SkippedFrequency});
  }

  lemma TallyOneMore(added: map<int, Row>, c: int, id: int, row: Row, created: int, skipped: int, freqSkipped: int)
    requires id !in added && row.campaign == c && Tallied(added, c, created, skipped, freqSkipped)
    ensures Tallied(added[id := row], c, created + if row.status == Pending then 1 else 0,
                    skipped + if row.status == SkippedSuppressed then 1 else 0,
                    freqSkipped + if row.status == SkippedFrequency then 1 else 0)
  {
    CountAdd(added, id, row, c, {Pending});
    CountAdd(added, id, row, c, {SkippedSuppressed});
    CountAdd(added, id, row, c, {SkippedFrequency});
  }

  lemma CountAdd(rows: map<int, Row>, r: int, row: Row, c: int, ss: set<RowStatus>)
    requires r !in rows && row.campaign == c
    ensures Count(rows[r := row], c, ss) == Count(rows, c, ss) + if row.status in ss then 1 else 0
  {
    var before, after := RowsIn(rows, c, ss), RowsIn(rows[r := row], c, ss);
    assert after == before + if row.status in ss then {r} else {};
  }
}
