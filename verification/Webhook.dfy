/** Reconciliation of Postal's webhook events with the ledger. */
module Webhook {
  import opened Text
  import opened RecipientLedger

  datatype Event = Event(kind: string, uuid: Option<string>, token: Option<string>, recipient: Option<string>,
                         status: Option<string>, detail: Option<string>, at: int)

  const DELIVERY_EVENTS: set<string> := {"MessageSent", "MessageDelivered"}
  const FAILURE_EVENTS: set<string> := {"MessageDeliveryFailed", "MessageBounced", "MessageHeld"}
  const COMPLAINT_EVENTS: set<string> := {"MessageSpamReport", "MessageComplaint"}
  const PERMANENT_STATUSES: set<string> := {"hardfail", "hard_fail", "permanent"}

  predicate IsDelivery(e: Event) { e.kind in DELIVERY_EVENTS }
  predicate IsFailure(e: Event) { e.kind in FAILURE_EVENTS }
  predicate IsComplaint(e: Event) { e.kind in COMPLAINT_EVENTS }

  predicate IsPermanent(status: Option<string>) {
    Lower(Strip(if Truthy(status) then status.value else "")) in PERMANENT_STATUSES
  }

  predicate IsDeferral(e: Event) {
    if !IsFailure(e) || IsComplaint(e) then false
    else if e.kind == "MessageBounced" then false
    else !IsPermanent(e.status)
  }

  predicate ClassifyBounce(e: Event) {
    if IsComplaint(e) then true
    else if e.kind == "MessageBounced" then true
    else IsPermanent(e.status)
  }

  /** The two classifications are written separately; on failures and complaints they never disagree. */
  lemma DeferralIsNotBounce(e: Event)
    requires IsFailure(e) || IsComplaint(e)
    ensures IsDeferral(e) <==> !ClassifyBounce(e)
  {
  }

  function ReasonOf(e: Event): Reason {
    if IsComplaint(e) then Complaint else HardBounce
  }

  predicate IsDuplicate(l: Ledger, e: Event) {
    Truthy(e.uuid) && exists i | 0 <= i < |l.log| :: l.log[i].uuid == e.uuid
  }

  /** `hit` is an answer the lookup by message token may give: a row with that token, or none if there is none. */
  predicate LawfulHit(l: Ledger, e: Event, hit: Option<int>) {
    match hit
    case None => Truthy(e.token) ==> forall r | r in l.rows :: l.rows[r].token != e.token
    case Some(r) => Truthy(e.token) && r in l.rows && l.rows[r].token == e.token
  }

  datatype Verdict = WasDuplicate | WasUnmatched | WasDelivered | WasDeferred | WasBounced | WasComplaint | WasIgnored

  function VerdictOf(l: Ledger, e: Event, hit: Option<int>): Verdict {
    if IsDuplicate(l, e) then WasDuplicate
    else if hit.None? then WasUnmatched
    else if IsDelivery(e) then WasDelivered
    else if !IsFailure(e) && !IsComplaint(e) then WasIgnored
    else if IsDeferral(e) then WasDeferred
    else if IsComplaint(e) then WasComplaint
    else WasBounced
  }

  function Clip(s: string): string {
    if |s| <= 1000 then s else s[..1000]
  }

  /** The row after an event that was matched to it. */
  function RowAfter(row: Row, e: Event): Row {
    var seen := row.(lastEvent := Some(e.at));
    if IsDelivery(e) then seen.(status := Delivered)
    else if (IsFailure(e) || IsComplaint(e)) && !IsDeferral(e) then
      seen.(status := Bounced,
            error := if row.error.None? && Truthy(e.detail) then Some(Clip(e.detail.value)) else row.error)
    else seen
  }

  /** The address an event suppresses, if any. */
  function Suppressed(l: Ledger, e: Event, hit: Option<int>): Option<string>
    requires LawfulHit(l, e, hit)
  {
    match VerdictOf(l, e, hit)
    case WasUnmatched =>
      if (IsFailure(e) || IsComplaint(e)) && Truthy(e.recipient) && ClassifyBounce(e) then e.recipient else None
    case WasBounced => if ClassifyBounce(e) then Some(l.rows[hit.value].email) else None
    case WasComplaint => if ClassifyBounce(e) then Some(l.rows[hit.value].email) else None
    case _ => None
  }

  /** `apply_event` on the ledger. */
  function Reconcile(l: Ledger, e: Event, hit: Option<int>): Ledger
    requires LawfulHit(l, e, hit)
  {
    if IsDuplicate(l, e) then l
    else
      var logged := if hit.None? then l else Recorded(l, e, hit.value);
      var who := Suppressed(l, e, hit);
      if who.None? then logged
      else logged.(suppressions := Suppress(logged.suppressions, who.value, Suppression(ReasonOf(e), e.detail)))
  }

  /** Rewrite a row and count its first move into the new status. */
  function Moved(l: Ledger, r: int, row: Row): Ledger
    requires r in l.rows
  {
    var m := l.(rows := l.rows[r := row]);
    if row.status == l.rows[r].status then m
    else Bump(m, row.campaign, if row.status == Delivered then DeliveredCount else BouncedCount)
  }

  /** Log the event and move its row. */
  function Recorded(l: Ledger, e: Event, r: int): Ledger
    requires r in l.rows
  {
    Moved(l.(log := l.log + [LogEntry(r, e.kind, e.status, e.uuid, e.at)]), r, RowAfter(l.rows[r], e))
  }

  /** Rewriting the row first, within its status, makes no difference. */
  lemma MovedTwice(l: Ledger, r: int, a: Row, b: Row)
    requires r in l.rows && a.status == l.rows[r].status
    ensures Moved(l.(rows := l.rows[r := a]), r, b) == Moved(l, r, b)
  {
    assert l.rows[r := a][r := b] == l.rows[r := b];
  }

  /** `apply_event` on the contact table: suppressing an address also sets the status of its contact. */
  function ContactsAfter(l: Ledger, contacts: map<int, Contact>, e: Event, hit: Option<int>): map<int, Contact>
    requires LawfulHit(l, e, hit)
  {
    var who := Suppressed(l, e, hit);
    if who.None? then contacts else MarkContact(contacts, who.value, ReasonOf(e))
  }

  /** A matched event is recorded, and suppresses if it is a bounce or a complaint. */
  predicate Punishes(e: Event) {
    !IsDelivery(e) && (IsFailure(e) || IsComplaint(e)) && !IsDeferral(e) && ClassifyBounce(e)
  }

  lemma MatchedEvent(l: Ledger, contacts: map<int, Contact>, e: Event, r: int)
    requires LawfulHit(l, e, Some(r)) && !IsDuplicate(l, e)
    ensures var m, email := Recorded(l, e, r), l.rows[r].email;
            && Reconcile(l, e, Some(r)) ==
                 (if Punishes(e)
                  then m.(suppressions := Suppress(l.suppressions, email, Suppression(ReasonOf(e), e.detail)))
                  else m)
            && ContactsAfter(l, contacts, e, Some(r)) ==
                 (if Punishes(e) then MarkContact(contacts, email, ReasonOf(e)) else contacts)
  {
  }

  // ----- What an event keeps -----

  /** Of two sent-like statuses the counter of the new one goes up, if it is new. */
  lemma MoveBalances(rows: map<int, Row>, r: int, row: Row, k: Campaign)
    requires r in rows && row.campaign == rows[r].campaign && rows[r].status in SENT_LIKE
    requires Balanced(rows, row.campaign, k)
    requires row.status == rows[r].status || row.status == Delivered || row.status == Bounced
    ensures Balanced(rows[r := row], row.campaign,
                     if row.status == rows[r].status then k
                     else Bumped(k, if row.status == Delivered then DeliveredCount else BouncedCount))
    ensures Count(rows[r := row], row.campaign, {Pending}) == Count(rows, row.campaign, {Pending})
  {
    var c := row.campaign;
    CountWrite(rows, r, row, c, SENT_LIKE);
    CountWrite(rows, r, row, c, {Failed});
    CountWrite(rows, r, row, c, SKIPPED);
    CountWrite(rows, r, row, c, ANY);
    CountWrite(rows, r, row, c, {Pending});
    CountWrite(rows, r, row, c, {Delivered});
    CountWrite(rows, r, row, c, {Bounced});
  }

  lemma ReceiptBalances(l: Ledger, e: Event, r: int, d: int)
    requires Sound(l) && r in l.rows && l.rows[r].token.Some? && d in l.campaigns
    ensures CampaignSound(Recorded(l, e, r), d)
  {
    assert CampaignSound(l, d) && RowSound(l, r);
    var row := RowAfter(l.rows[r], e);
    if d == row.campaign { MoveBalances(l.rows, r, row, l.campaigns[d]); } else { CampaignUntouched(l, r, row, d); }
  }

  /** A matched row stays accepted; it becomes bounced only by an event that also suppresses its address. */
  lemma MatchedRowEvolves(row: Row, e: Event)
    requires row.token.Some? && row.status in SENT_LIKE
    ensures RowEvolves(row, RowAfter(row, e)) && RowAfter(row, e).status in SENT_LIKE
    ensures RowAfter(row, e).status == Bounced && row.status != Bounced ==>
              !IsDelivery(e) && !IsDeferral(e) && (IsFailure(e) || IsComplaint(e)) && ClassifyBounce(e)
  {
  }

  lemma RecordedWrites(l: Ledger, e: Event, r: int)
    requires r in l.rows
    ensures var m := Recorded(l, e, r);
            && m.rows == l.rows[r := RowAfter(l.rows[r], e)] && m.campaigns.Keys == l.campaigns.Keys
            && (forall c | c in l.campaigns :: m.campaigns[c].parent == l.campaigns[c].parent)
  {
  }

  /** Suppressing changes nothing else on the ledger. */
  lemma ReceiptWrites(l: Ledger, e: Event, r: int)
    requires LawfulHit(l, e, Some(r)) && !IsDuplicate(l, e)
    ensures var m := Reconcile(l, e, Some(r));
            m.rows == Recorded(l, e, r).rows && m.campaigns == Recorded(l, e, r).campaigns
  {
  }

  lemma BounceSuppresses(l: Ledger, e: Event, r: int)
    requires LawfulHit(l, e, Some(r)) && !IsDuplicate(l, e) && l.rows[r].token.Some? && l.rows[r].status in SENT_LIKE
    ensures var m := Reconcile(l, e, Some(r));
            && (forall a | a in l.suppressions :: a in m.suppressions && m.suppressions[a] == l.suppressions[a])
            && l.log <= m.log
            && (m.rows[r].status == Bounced && l.rows[r].status != Bounced ==>
                 IsSuppressed(m.suppressions, l.rows[r].email))
  {
    MatchedRowEvolves(l.rows[r], e);
  }

  lemma ReceiptKeepsRows(l: Ledger, e: Event, r: int)
    requires Sound(l) && LawfulHit(l, e, Some(r)) && !IsDuplicate(l, e)
    ensures Rewrites(l, Reconcile(l, e, Some(r)), r)
  {
    assert RowSound(l, r);
    MatchedRowEvolves(l.rows[r], e);
    ReceiptWrites(l, e, r);
    RecordedWrites(l, e, r);
    BounceSuppresses(l, e, r);
  }

  lemma {:induction false} ReconcileKeepsSound(l: Ledger, e: Event, hit: Option<int>)
    requires Sound(l) && LawfulHit(l, e, hit)
    ensures Sound(Reconcile(l, e, hit)) && Evolves(l, Reconcile(l, e, hit))
  {
    var m := Reconcile(l, e, hit);
    if IsDuplicate(l, e) {
    } else if hit.Some? {
      ReceiptKeepsRows(l, e, hit.value);
      RewriteKeepsRows(l, m, hit.value);
      assert m.rows == Recorded(l, e, hit.value).rows && m.campaigns == Recorded(l, e, hit.value).campaigns;
      forall d | d in m.campaigns ensures CampaignSound(m, d) { ReceiptBalances(l, e, hit.value, d); }
    } else {
      SuppressionKeepsSound(l, m);
    }
  }

  /** An event moves at most one row, and only one that Postal has already accepted. */
  lemma OnlyAcceptedRowsMove(l: Ledger, e: Event, hit: Option<int>, r: int)
    requires Sound(l) && LawfulHit(l, e, hit) && r in l.rows
    ensures Reconcile(l, e, hit).rows.Keys == l.rows.Keys
    ensures Reconcile(l, e, hit).rows[r] != l.rows[r] ==>
              hit == Some(r) && l.rows[r].token.Some? && l.rows[r].status in SENT_LIKE
              && Reconcile(l, e, hit).rows[r].status in SENT_LIKE
  {
    assert RowSound(l, r);
  }

  // ----- Redelivery -----

  /** In `l` the event can have no effect any more. */
  ghost predicate Absorbed(l: Ledger, e: Event) {
    || IsDuplicate(l, e)
    || (&& LawfulHit(l, e, None)
        && ((IsFailure(e) || IsComplaint(e)) && Truthy(e.recipient) && ClassifyBounce(e)
            ==> IsSuppressed(l.suppressions, e.recipient.value)))
  }

  lemma AbsorbedIsInvisible(l: Ledger, e: Event, hit: Option<int>)
    requires Absorbed(l, e) && LawfulHit(l, e, hit)
    ensures Reconcile(l, e, hit) == l
  {
  }

  lemma AppliedIsAbsorbed(l: Ledger, e: Event, hit: Option<int>)
    requires Truthy(e.uuid) && LawfulHit(l, e, hit)
    ensures Absorbed(Reconcile(l, e, hit), e)
  {
    var m := Reconcile(l, e, hit);
    if !IsDuplicate(l, e) && hit.Some? {
      assert m.log[|l.log|].uuid == e.uuid;
    }
  }

  /** Webhooks leave rows, tokens and addresses in place, and only add to log and suppressions. */
  ghost predicate Grown(l: Ledger, m: Ledger) {
    && l.log <= m.log && m.rows.Keys == l.rows.Keys
    && (forall r | r in l.rows :: m.rows[r].token == l.rows[r].token && m.rows[r].email == l.rows[r].email
                                 && m.rows[r].pool == l.rows[r].pool)
    && (forall a | a in l.suppressions :: a in m.suppressions)
  }

  lemma RecordedGrows(l: Ledger, e: Event, r: int)
    requires r in l.rows
    ensures Grown(l, Recorded(l, e, r)) && Recorded(l, e, r).suppressions == l.suppressions
  {
  }

  lemma SuppressingGrows(l: Ledger, m: Ledger, who: string, why: Suppression)
    requires Grown(l, m)
    ensures Grown(l, m.(suppressions := Suppress(m.suppressions, who, why)))
  {
  }

  lemma ReconcileGrows(l: Ledger, e: Event, hit: Option<int>)
    requires LawfulHit(l, e, hit)
    ensures Grown(l, Reconcile(l, e, hit))
  {
    if !IsDuplicate(l, e) {
      if hit.Some? { RecordedGrows(l, e, hit.value); }
      var m := if hit.None? then l else Recorded(l, e, hit.value);
      var who := Suppressed(l, e, hit);
      if who.Some? { SuppressingGrows(l, m, who.value, Suppression(ReasonOf(e), e.detail)); }
    }
  }

  lemma DuplicateStays(l: Ledger, m: Ledger, e: Event)
    requires l.log <= m.log
    ensures IsDuplicate(l, e) ==> IsDuplicate(m, e)
  {
    forall i | 0 <= i < |l.log| ensures m.log[i] == l.log[i] {}
  }

  lemma AbsorbedInFuture(l: Ledger, m: Ledger, e: Event)
    requires Absorbed(l, e) && Grown(l, m)
    ensures Absorbed(m, e)
  {
    DuplicateStays(l, m, e);
  }

  lemma AbsorbedForever(l: Ledger, e: Event, f: Event, hit: Option<int>)
    requires Absorbed(l, e) && LawfulHit(l, f, hit)
    ensures Absorbed(Reconcile(l, f, hit), e)
  {
    ReconcileGrows(l, f, hit);
    AbsorbedInFuture(l, Reconcile(l, f, hit), e);
  }

  /** One delivery of an event; `copy` marks a redelivery. */
  datatype Delivery = Delivery(event: Event, hit: Option<int>, copy: bool)

  datatype Books = Books(ledger: Ledger, contacts: map<int, Contact>)

  function Deliver(b: Books, e: Event, hit: Option<int>): Books
    requires LawfulHit(b.ledger, e, hit)
  {
    Books(Reconcile(b.ledger, e, hit), ContactsAfter(b.ledger, b.contacts, e, hit))
  }

  /** Deliveries whose token lookups are answered truthfully, one after the other. */
  ghost predicate Lawful(b: Books, ds: seq<Delivery>)
    decreases |ds|, 0
  {
    ds == [] ||
    (&& Lawful(b, ds[..|ds| - 1])
     && LawfulHit(Replay(b, ds[..|ds| - 1]).ledger, ds[|ds| - 1].event, ds[|ds| - 1].hit))
  }

  ghost function Replay(b: Books, ds: seq<Delivery>): Books
    requires Lawful(b, ds)
    decreases |ds|, 1
  {
    if ds == [] then b
    else
      Deliver(Replay(b, ds[..|ds| - 1]), ds[|ds| - 1].event, ds[|ds| - 1].hit)
  }

  function Originals(ds: seq<Delivery>): seq<Delivery> {
    if ds == [] then []
    else Originals(ds[..|ds| - 1]) + if ds[|ds| - 1].copy then [] else [ds[|ds| - 1]]
  }

  /** Every copy carries a uuid and repeats an event delivered earlier. */
  ghost predicate CopiesFollow(ds: seq<Delivery>) {
    forall i | 0 <= i < |ds| && ds[i].copy :: Truthy(ds[i].event.uuid) && exists j | 0 <= j < i ::
      ds[j].event == ds[i].event
  }

  lemma {:induction false} SeenIsAbsorbed(b: Books, ds: seq<Delivery>, j: nat)
    requires Lawful(b, ds) && j < |ds| && Truthy(ds[j].event.uuid)
    ensures Absorbed(Replay(b, ds).ledger, ds[j].event)
  {
    var before, d := ds[..|ds| - 1], ds[|ds| - 1];
    if j == |ds| - 1 {
      AppliedIsAbsorbed(Replay(b, before).ledger, d.event, d.hit);
    } else {
      SeenIsAbsorbed(b, before, j);
      AbsorbedForever(Replay(b, before).ledger, ds[j].event, d.event, d.hit);
    }
  }

  lemma CopiesFollowPrefix(ds: seq<Delivery>)
    requires ds != [] && CopiesFollow(ds)
    ensures CopiesFollow(ds[..|ds| - 1])
  {
    var before := ds[..|ds| - 1];
    forall i | 0 <= i < |before| && before[i].copy
      ensures Truthy(before[i].event.uuid) && exists j | 0 <= j < i :: before[j].event == before[i].event
    {
      assert ds[i].copy;
      var j :| 0 <= j < i && ds[j].event == ds[i].event;
      assert before[j].event == before[i].event;
    }
  }

  /** Redelivered copies, wherever they arrive, leave rows, counters, log and suppressions as without them. */
  lemma {:induction false} RedeliveryInvisible(b: Books, ds: seq<Delivery>)
    requires Lawful(b, ds) && CopiesFollow(ds)
    ensures Lawful(b, Originals(ds)) && Replay(b, Originals(ds)).ledger == Replay(b, ds).ledger
  {
    if ds == [] {
    } else {
      var before, d := ds[..|ds| - 1], ds[|ds| - 1];
      CopiesFollowPrefix(ds);
      RedeliveryInvisible(b, before);
      if d.copy {
        var j :| 0 <= j < |ds| - 1 && ds[j].event == d.event;
        SeenIsAbsorbed(b, before, j);
        AbsorbedIsInvisible(Replay(b, before).ledger, d.event, d.hit);
        assert Originals(ds) == Originals(before);
      } else {
        assert Originals(ds)[..|Originals(ds)| - 1] == Originals(before);
      }
    }
  }

  // ----- Redelivery and contacts -----

  /** The delivery suppresses the address. */
  predicate Strikes(l: Ledger, d: Delivery, address: string)
    requires LawfulHit(l, d.event, d.hit)
  {
    var who := Suppressed(l, d.event, d.hit);
    who.Some? && NormalizeEmail(who.value) == Some(address)
  }

  /** Why the address was last suppressed by a delivery, whether or not it was suppressed before. */
  ghost function LastReason(b: Books, ds: seq<Delivery>, address: string): Option<Reason>
    requires Lawful(b, ds)
  {
    if ds == [] then None
    else
      var d := ds[|ds| - 1];
      if Strikes(Replay(b, ds[..|ds| - 1]).ledger, d, address) then Some(ReasonOf(d.event))
      else LastReason(b, ds[..|ds| - 1], address)
  }

  /** The last strike, and nothing else, decides the status of a contact. */
  lemma {:induction false} StatusFollowsLastReason(b: Books, ds: seq<Delivery>, k: int)
    requires Lawful(b, ds) && k in b.contacts
    ensures var why := LastReason(b, ds, b.contacts[k].email);
            && k in Replay(b, ds).contacts
            && Replay(b, ds).contacts[k] ==
               if why.Some? then b.contacts[k].(status := StatusFor(why.value)) else b.contacts[k]
  {
    if ds != [] { StatusFollowsLastReason(b, ds[..|ds| - 1], k); }
  }

  lemma StruckInPast(l: Ledger, m: Ledger, d: Delivery, address: string)
    requires Grown(l, m) && LawfulHit(m, d.event, d.hit) && Strikes(m, d, address)
    ensures LawfulHit(l, d.event, d.hit) && Strikes(l, d, address)
  {
    DuplicateStays(l, m, d.event);
  }

  /** What would strike after another event would have struck before it. */
  lemma StruckBefore(l: Ledger, f: Event, hit: Option<int>, d: Delivery, address: string)
    requires LawfulHit(l, f, hit) && LawfulHit(Reconcile(l, f, hit), d.event, d.hit)
    requires Strikes(Reconcile(l, f, hit), d, address)
    ensures LawfulHit(l, d.event, d.hit) && Strikes(l, d, address)
  {
    ReconcileGrows(l, f, hit);
    StruckInPast(l, Reconcile(l, f, hit), d, address);
  }

  /** An event that strikes right after its own delivery struck then. */
  lemma StrikesTwice(l: Ledger, e: Event, hit: Option<int>, d: Delivery, address: string)
    requires LawfulHit(l, e, hit) && LawfulHit(Reconcile(l, e, hit), d.event, d.hit) && Truthy(e.uuid) && d.event == e
    requires Strikes(Reconcile(l, e, hit), d, address)
    ensures Strikes(l, Delivery(e, hit, false), address)
  {
    AppliedIsAbsorbed(l, e, hit);
    StruckBefore(l, e, hit, d, address);
  }

  /** A copy can only strike where an earlier delivery has struck. */
  lemma {:induction false} CopyStrikesAgain(b: Books, ds: seq<Delivery>, j: nat, d: Delivery, address: string)
    requires Lawful(b, ds) && j < |ds| && ds[j].event == d.event && Truthy(d.event.uuid)
    requires LawfulHit(Replay(b, ds).ledger, d.event, d.hit) && Strikes(Replay(b, ds).ledger, d, address)
    ensures LastReason(b, ds, address).Some?
  {
    var before, last := ds[..|ds| - 1], ds[|ds| - 1];
    var l := Replay(b, before).ledger;
    if j == |ds| - 1 {
      StrikesTwice(l, last.event, last.hit, d, address);
    } else {
      StruckBefore(l, last.event, last.hit, d, address);
      CopyStrikesAgain(b, before, j, d, address);
    }
  }

  lemma {:induction false} StrikesOfOriginals(b: Books, ds: seq<Delivery>, address: string)
    requires Lawful(b, ds) && CopiesFollow(ds)
    ensures Lawful(b, Originals(ds))
    ensures LastReason(b, ds, address).Some? <==> LastReason(b, Originals(ds), address).Some?
  {
    RedeliveryInvisible(b, ds);
    if ds != [] {
      var before, d := ds[..|ds| - 1], ds[|ds| - 1];
      CopiesFollowPrefix(ds);
      RedeliveryInvisible(b, before);
      StrikesOfOriginals(b, before, address);
      if d.copy {
        assert Originals(ds) == Originals(before);
        if Strikes(Replay(b, before).ledger, d, address) {
          var j :| 0 <= j < |ds| - 1 && ds[j].event == d.event;
          CopyStrikesAgain(b, before, j, d, address);
        }
      } else {
        assert Originals(ds)[..|Originals(ds)| - 1] == Originals(before);
      }
    }
  }

  lemma {:induction false} ReasonsOfEvents(b: Books, ds: seq<Delivery>, address: string)
    requires Lawful(b, ds)
    ensures LastReason(b, ds, address) in {None, Some(HardBounce), Some(Complaint)}
  {
    if ds != [] { ReasonsOfEvents(b, ds[..|ds| - 1], address); }
  }

  /**
   Redelivery shows in a contact if and only if it changes why the contact's address was suppressed last: with the
   copies and without them, the last delivery to suppress it must be a bounce both times, a complaint both times, or
   there must be none.
   */
  lemma {:induction false} RedeliveryShowsInContact(b: Books, ds: seq<Delivery>, k: int)
    requires Lawful(b, ds) && CopiesFollow(ds) && k in b.contacts
    ensures Lawful(b, Originals(ds)) && k in Replay(b, ds).contacts && k in Replay(b, Originals(ds)).contacts
    ensures Replay(b, Originals(ds)).contacts[k] == Replay(b, ds).contacts[k] <==>
            LastReason(b, Originals(ds), b.contacts[k].email) == LastReason(b, ds, b.contacts[k].email)
  {
    var address := b.contacts[k].email;
    StrikesOfOriginals(b, ds, address);
    StatusFollowsLastReason(b, ds, k);
    StatusFollowsLastReason(b, Originals(ds), k);
    ReasonsOfEvents(b, ds, address);
    ReasonsOfEvents(b, Originals(ds), address);
  }

  /** A copy cannot touch a contact unless it is a foreign failure that suppresses again. */
  predicate Harmless(d: Delivery) {
    || d.hit.Some? || !Truthy(d.event.recipient) || !ClassifyBounce(d.event)
    || !(IsFailure(d.event) || IsComplaint(d.event))
  }

  /** When every copy is harmless in that sense, the contact table agrees as well. */
  lemma {:induction false} RedeliveryInvisibleToContacts(b: Books, ds: seq<Delivery>)
    requires Lawful(b, ds) && CopiesFollow(ds)
    requires forall i | 0 <= i < |ds| && ds[i].copy :: Harmless(ds[i])
    ensures Lawful(b, Originals(ds)) && Replay(b, Originals(ds)) == Replay(b, ds)
  {
    RedeliveryInvisible(b, ds);
    if ds == [] {
    } else {
      var before, d := ds[..|ds| - 1], ds[|ds| - 1];
      CopiesFollowPrefix(ds);
      RedeliveryInvisibleToContacts(b, before);
      if d.copy {
        var j :| 0 <= j < |ds| - 1 && ds[j].event == d.event;
        SeenIsAbsorbed(b, before, j);
        assert Originals(ds) == Originals(before);
      } else {
        assert Originals(ds)[..|Originals(ds)| - 1] == Originals(before);
      }
    }
  }

  /** A failure or complaint about a message of somebody else, about an address. */
  predicate Foreign(l: Ledger, e: Event, address: string) {
    && e.token.None? && (IsFailure(e) || IsComplaint(e)) && ClassifyBounce(e) && !IsDuplicate(l, e)
    && Truthy(e.recipient) && NormalizeEmail(e.recipient.value) == Some(address)
  }

  /**
   The failing inputs: of two foreign events about an address, one a bounce and one a complaint, in either order, a
   copy of the first after the second puts the contact back to the status of the first.
   */
  lemma RedeliveryCanFlipContact(b: Books, k: int, first: Event, second: Event)
    requires k in b.contacts && Foreign(b.ledger, first, b.contacts[k].email)
    requires Foreign(b.ledger, second, b.contacts[k].email)
    requires IsComplaint(first) != IsComplaint(second)
    ensures var once := Deliver(Deliver(b, first, None), second, None);
            var again := Deliver(once, first, None);
            && again.ledger == once.ledger
            && k in once.contacts && once.contacts[k].status == StatusFor(ReasonOf(second))
            && k in again.contacts && again.contacts[k].status == StatusFor(ReasonOf(first)) != once.contacts[k].status
  {
    var b1 := Deliver(b, first, None);
    assert b1.ledger.log == b.ledger.log && b1.contacts[k].email == b.contacts[k].email;
    var b2 := Deliver(b1, second, None);
    assert b2.ledger.log == b.ledger.log && b2.contacts[k].email == b.contacts[k].email;
  }

  /**
   Redelivery is invisible only while the ledger's tokens stand still: an event that overtakes the commit of its
   own message is dropped as unmatched, and its copy is then applied.
   */
  lemma EarlyEventIsNotAbsorbed(l: Ledger, r: int, pool: string, e: Event)
    requires Sound(l) && StillPending(l, r) && Truthy(e.token) && IsDelivery(e) && !IsDuplicate(l, e)
    requires LawfulHit(l, e, None)
    ensures Reconcile(l, e, None) == l
    ensures var m := CommitSend(l, r, pool, e.token.value);
            && LawfulHit(m, e, Some(r)) && Reconcile(m, e, Some(r)).rows[r].status == Delivered
  {
    assert RowSound(l, r);
  }
}
