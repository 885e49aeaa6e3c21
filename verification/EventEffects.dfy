/** What each webhook event does, in the terms of Postal's payload: its kind, and the words of its status. */
module EventEffects {
  import opened Text
  import opened RecipientLedger
  import opened Webhook

  predicate SaysDelivered(e: Event) {
    e.kind == "MessageSent" || e.kind == "MessageDelivered"
  }

  predicate SaysComplaint(e: Event) {
    e.kind == "MessageSpamReport" || e.kind == "MessageComplaint"
  }

  predicate SaysFailed(e: Event) {
    e.kind == "MessageDeliveryFailed" || e.kind == "MessageHeld"
  }

  /** The status reads as one of the three words for good, whatever its letter case and the white space around it. */
  ghost predicate ForGood(status: Option<string>) {
    status.Some? &&
    (ReadsAs(status.value, "hardfail") || ReadsAs(status.value, "hard_fail") || ReadsAs(status.value, "permanent"))
  }

  /** The address will never be mailed again: a complaint, a bounce, or a failure for good. */
  ghost predicate EndsBadly(e: Event) {
    SaysComplaint(e) || e.kind == "MessageBounced" || (SaysFailed(e) && ForGood(e.status))
  }

  // ----- The classification -----

  lemma WordsForGood(status: Option<string>)
    ensures IsPermanent(status) <==> ForGood(status)
  {
    var s := if Truthy(status) then status.value else "";
    WordIsRead(s, "hardfail");
    WordIsRead(s, "hard_fail");
    WordIsRead(s, "permanent");
    if status.Some? { assert s == status.value; }
  }

  lemma Kinds(e: Event)
    ensures IsDelivery(e) <==> SaysDelivered(e)
    ensures IsComplaint(e) <==> SaysComplaint(e)
    ensures IsFailure(e) <==> SaysFailed(e) || e.kind == "MessageBounced"
  {
  }

  lemma KindsDiffer(e: Event)
    ensures !(SaysDelivered(e) && SaysComplaint(e)) && !(SaysDelivered(e) && EndsBadly(e))
    ensures !(SaysFailed(e) && SaysComplaint(e))
  {
    DifferByLetter(e.kind);
  }

  lemma DifferByLetter(k: string)
    ensures k == "MessageSent" || k == "MessageDelivered" ==>
              k !in {"MessageSpamReport", "MessageComplaint", "MessageBounced", "MessageDeliveryFailed", "MessageHeld"}
    ensures k == "MessageDeliveryFailed" || k == "MessageHeld" ==>
              k !in {"MessageSpamReport", "MessageComplaint", "MessageBounced"}
    ensures k == "MessageBounced" ==> k !in {"MessageSpamReport", "MessageComplaint"}
  {
    assert "MessageSent"[8] == 'e' && "MessageSpamReport"[8] == 'p' && |"MessageSent"| == 11 && |"MessageHeld"| == 11;
    assert "MessageHeld"[7] == 'H' && "MessageComplaint"[7] == 'C' && "MessageBounced"[7] == 'B';
    assert "MessageDelivered"[7] == 'D' && |"MessageDelivered"| == 16 && |"MessageDeliveryFailed"| == 21;
    assert |"MessageComplaint"| == 16 && |"MessageSpamReport"| == 17 && |"MessageBounced"| == 14;
  }

  /** On events that are not deliveries: those that end badly are exactly the bounces the code acts on. */
  lemma BadEnds(e: Event)
    ensures Punishes(e) <==> EndsBadly(e)
    ensures (IsFailure(e) || IsComplaint(e)) && ClassifyBounce(e) <==> EndsBadly(e)
    ensures !IsDelivery(e) && (IsFailure(e) || IsComplaint(e)) && !IsDeferral(e) <==> EndsBadly(e)
  {
    Kinds(e);
    KindsDiffer(e);
    WordsForGood(e.status);
    DifferByLetter(e.kind);
  }

  // ----- Effects -----

  function ReasonFor(e: Event): Reason {
    if SaysComplaint(e) then Complaint else HardBounce
  }

  /** The address is suppressed, for this reason unless it was already; other addresses are as they were. */
  predicate Struck(before: map<string, Suppression>, after: map<string, Suppression>, address: string, e: Event) {
    match NormalizeEmail(address)
    case None => after == before
    case Some(n) =>
      n in after && after == if n in before then before else before[n := Suppression(ReasonFor(e), e.detail)]
  }

  /** The contact with the address gets the status that goes with the reason; others are as they were. */
  predicate StruckContacts(before: map<int, Contact>, after: map<int, Contact>, address: string, e: Event) {
    && after.Keys == before.Keys
    && forall k | k in before ::
         after[k] == if NormalizeEmail(address) == Some(before[k].email)
                     then before[k].(status := if SaysComplaint(e) then Complained else ContactBounced) else before[k]
  }

  /** The matched row afterwards. */
  ghost predicate RowBecomes(a: Row, b: Row, e: Event) {
    && b == a.(status := b.status, error := b.error, lastEvent := Some(e.at))
    && b.status == (if SaysDelivered(e) then Delivered else if EndsBadly(e) then Bounced else a.status)
    && (EndsBadly(e) && a.error.None? && e.detail.Some? && e.detail.value != "" ==>
          b.error.Some? && b.error.value <= e.detail.value && |b.error.value| == Least(1000, |e.detail.value|))
    && (!(EndsBadly(e) && a.error.None? && e.detail.Some? && e.detail.value != "") ==> b.error == a.error)
  }

  function Least(a: nat, b: nat): nat {
    if a <= b then a else b
  }

  /** Delivered and bounced count a row once for each move into that status. */
  ghost predicate CountersBecome(before: map<int, Campaign>, after: map<int, Campaign>, row: Row, e: Event) {
    && after.Keys == before.Keys
    && forall c | c in before ::
         after[c] == before[c].(
           delivered := before[c].delivered +
                        (if c == row.campaign && SaysDelivered(e) && row.status != Delivered then 1 else 0),
           bounced := before[c].bounced + (if c == row.campaign && EndsBadly(e) && row.status != Bounced then 1 else 0))
  }

  ghost predicate MatchedDoes(l: Ledger, contacts: map<int, Contact>, e: Event, r: int, m: Ledger,
                              after: map<int, Contact>)
    requires r in l.rows
  {
    var row := l.rows[r];
    && r in m.rows && m.rows == l.rows[r := m.rows[r]] && RowBecomes(row, m.rows[r], e)
    && CountersBecome(l.campaigns, m.campaigns, row, e)
    && m.log == l.log + [LogEntry(r, e.kind, e.status, e.uuid, e.at)]
    && (if EndsBadly(e)
        then Struck(l.suppressions, m.suppressions, row.email, e) && StruckContacts(contacts, after, row.email, e)
        else m.suppressions == l.suppressions && after == contacts)
  }

  ghost predicate UnmatchedDoes(l: Ledger, contacts: map<int, Contact>, e: Event, m: Ledger, after: map<int, Contact>) {
    && m == l.(suppressions := m.suppressions)
    && if EndsBadly(e) && e.recipient.Some? && e.recipient.value != ""
       then Struck(l.suppressions, m.suppressions, e.recipient.value, e)
            && StruckContacts(contacts, after, e.recipient.value, e)
       else m.suppressions == l.suppressions && after == contacts
  }

  /** The whole effect of an event: nothing if its uuid is logged, else that on its row, or that on its recipient. */
  ghost predicate Does(l: Ledger, contacts: map<int, Contact>, e: Event, hit: Option<int>, m: Ledger,
                       after: map<int, Contact>)
    requires LawfulHit(l, e, hit)
  {
    if e.uuid.Some? && e.uuid.value != "" && exists i | 0 <= i < |l.log| :: l.log[i].uuid == e.uuid
    then m == l && after == contacts
    else if hit.Some? then MatchedDoes(l, contacts, e, hit.value, m, after)
    else UnmatchedDoes(l, contacts, e, m, after)
  }

  /** The answer for the log. */
  ghost predicate Answers(l: Ledger, e: Event, hit: Option<int>, v: Verdict) {
    && (v.WasDuplicate? <==>
         e.uuid.Some? && e.uuid.value != "" && exists i | 0 <= i < |l.log| :: l.log[i].uuid == e.uuid)
    && (!v.WasDuplicate? ==>
          && (v.WasUnmatched? <==> hit.None?)
          && (hit.Some? ==>
                && (v.WasDelivered? <==> SaysDelivered(e))
                && (v.WasComplaint? <==> SaysComplaint(e))
                && (v.WasBounced? <==> EndsBadly(e) && !SaysComplaint(e))
                && (v.WasDeferred? <==> SaysFailed(e) && !EndsBadly(e))))
  }

  lemma SuppressStrikes(supp: map<string, Suppression>, contacts: map<int, Contact>, address: string, e: Event)
    ensures Struck(supp, Suppress(supp, address, Suppression(ReasonOf(e), e.detail)), address, e)
    ensures StruckContacts(contacts, MarkContact(contacts, address, ReasonOf(e)), address, e)
  {
    Kinds(e);
  }

  lemma RowEffect(a: Row, e: Event)
    ensures RowBecomes(a, RowAfter(a, e), e)
  {
    BadEnds(e);
    Kinds(e);
    KindsDiffer(e);
  }

  lemma CounterEffect(l: Ledger, e: Event, r: int)
    requires r in l.rows
    ensures var m := Recorded(l, e, r);
            && r in m.rows && m.rows == l.rows[r := RowAfter(l.rows[r], e)]
            && m.log == l.log + [LogEntry(r, e.kind, e.status, e.uuid, e.at)] && m.suppressions == l.suppressions
            && CountersBecome(l.campaigns, m.campaigns, l.rows[r], e)
  {
    RowEffect(l.rows[r], e);
    KindsDiffer(e);
  }

  /** Every event does what its kind and status say, no more and no less. */
  lemma EventDoes(l: Ledger, contacts: map<int, Contact>, e: Event, hit: Option<int>)
    requires LawfulHit(l, e, hit)
    ensures Does(l, contacts, e, hit, Reconcile(l, e, hit), ContactsAfter(l, contacts, e, hit))
  {
    if IsDuplicate(l, e) {
    } else if hit.Some? {
      MatchedEvent(l, contacts, e, hit.value);
      CounterEffect(l, e, hit.value);
      RowEffect(l.rows[hit.value], e);
      BadEnds(e);
      SuppressStrikes(l.suppressions, contacts, l.rows[hit.value].email, e);
    } else {
      BadEnds(e);
      if Truthy(e.recipient) { SuppressStrikes(l.suppressions, contacts, e.recipient.value, e); }
    }
  }

  lemma VerdictAnswers(l: Ledger, e: Event, hit: Option<int>)
    ensures Answers(l, e, hit, VerdictOf(l, e, hit))
  {
    BadEnds(e);
    Kinds(e);
    KindsDiffer(e);
    DifferByLetter(e.kind);
  }
}
