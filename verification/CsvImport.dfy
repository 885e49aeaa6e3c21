/**
 Importing a file of contacts: rows are checked one by one, but the tables are consulted and written a batch at a
 time. The specification checks every row against the live tables.
 */
module CsvImport {
  import opened Text

  /** A line of the file after its columns have been told apart. */
  datatype Line = Line(email: Option<string>, first: Option<string>, last: Option<string>, custom: map<string, string>)

  /**
   `validate` normalizes an address and checks its syntax, `isFree` recognizes addresses of free providers, and
   `refuses` tells the contacts the database does not take, such as one with a name too long for its column.
   */
  datatype Rules = Rules(list: int, validate: Option<string> -> Option<string>, applyFree: bool, isFree: string -> bool,
                         refuses: Person -> bool)

  datatype Person = Person(email: string, first: Option<string>, last: Option<string>, custom: map<string, string>,
                           list: int)

  datatype Outcome = Imported | Unusable | RepeatInFile | RepeatInTable | BarredAddress | FreeProvider | RowError

  /** The counters of an import, one for each outcome, and the number of rows. */
  datatype Counts = Counts(total: nat, tally: multiset<Outcome>)

  // ----- One row -----

  function EmailOf(g: Rules, line: Line): Option<string> {
    g.validate(line.email)
  }

  predicate Filtered(g: Rules, email: string) {
    g.applyFree && g.isFree(email)
  }

  function NonEmpty(s: Option<string>): Option<string> {
    if Truthy(s) then s else None
  }

  function PersonOf(g: Rules, line: Line, email: string): Person {
    Person(email, NonEmpty(line.first), NonEmpty(line.last), line.custom, g.list)
  }

  function Emails(people: seq<Person>): set<string> {
    set i | 0 <= i < |people| :: people[i].email
  }

  // ----- The specification: every row meets the live tables -----

  datatype Progress = Progress(seen: set<string>, people: seq<Person>, counts: Counts)

  /** What a row comes to before the tables are looked at. */
  datatype Fate = Invalid | InFile | Free(email: string) | Candidate(person: Person)

  function FateOf(g: Rules, seen: set<string>, line: Line): Fate {
    var email := EmailOf(g, line);
    if email.None? then Invalid
    else if email.value in seen then InFile
    else if Filtered(g, email.value) then Free(email.value)
    else Candidate(PersonOf(g, line, email.value))
  }

  function Admit(suppressed: set<string>, people: seq<Person>, p: Person): (seq<Person>, multiset<Outcome>) {
    if p.email in suppressed then (people, multiset{BarredAddress})
    else if p.email in Emails(people) then (people, multiset{RepeatInTable})
    else (people + [p], multiset{Imported})
  }

  function OneRow(g: Rules, suppressed: set<string>, at: Progress, line: Line): Progress {
    var total := at.counts.total + 1;
    match FateOf(g, at.seen, line)
    case Invalid => at.(counts := Counts(total, at.counts.tally + multiset{Unusable}))
    case InFile => at.(counts := Counts(total, at.counts.tally + multiset{RepeatInFile}))
    case Free(email) =>
      at.(seen := at.seen + {email}, counts := Counts(total, at.counts.tally + multiset{FreeProvider}))
    case Candidate(p) =>
      var met := Admit(suppressed, at.people, p);
      Progress(at.seen + {p.email}, met.0, Counts(total, at.counts.tally + met.1))
  }

  /** After the first `n` rows. */
  function RowByRow(g: Rules, suppressed: set<string>, people: seq<Person>, rows: seq<Line>, n: nat): Progress
    requires n <= |rows|
  {
    if n == 0 then Progress({}, people, Counts(0, multiset{}))
    else OneRow(g, suppressed, RowByRow(g, suppressed, people, rows, n - 1), rows[n - 1])
  }

  /** A batch met by the live tables, entry by entry. */
  function AdmitAll(suppressed: set<string>, people: seq<Person>, batch: seq<Person>)
    : (seq<Person>, multiset<Outcome>)
  {
    if batch == [] then (people, multiset{})
    else
      var done := AdmitAll(suppressed, people, batch[..|batch| - 1]);
      var last := Admit(suppressed, done.0, batch[|batch| - 1]);
      (last.0, done.1 + last.1)
  }

  lemma AdmitOneMore(suppressed: set<string>, people: seq<Person>, batch: seq<Person>, p: Person)
    ensures var done, more := AdmitAll(suppressed, people, batch), AdmitAll(suppressed, people, batch + [p]);
            var last := Admit(suppressed, done.0, p);
            more.0 == last.0 && more.1 == done.1 + last.1
  {
    assert (batch + [p])[..|batch|] == batch;
  }

  lemma NextEntry(suppressed: set<string>, people: seq<Person>, batch: seq<Person>, i: nat)
    requires i < |batch|
    ensures var done, more := AdmitAll(suppressed, people, batch[..i]), AdmitAll(suppressed, people, batch[..i + 1]);
            var last := Admit(suppressed, done.0, batch[i]);
            more.0 == last.0 && more.1 == done.1 + last.1
  {
    assert batch[..i + 1][..i] == batch[..i];
  }

  /** Among the contacts from the `n`th on is one the database refuses. */
  predicate BringsRefused(g: Rules, n: nat, people: seq<Person>) {
    exists i | n <= i < |people| :: g.refuses(people[i])
  }

  // ----- What the specification promises -----

  ghost predicate Unique(people: seq<Person>) {
    forall i, j | 0 <= i < j < |people| :: people[i].email != people[j].email
  }

  function Mentioned(g: Rules, rows: seq<Line>, n: nat): set<string>
    requires n <= |rows|
  {
    set i | 0 <= i < n && EmailOf(g, rows[i]).Some? :: EmailOf(g, rows[i]).value
  }

  predicate Fits(g: Rules, suppressed: set<string>, email: string) {
    !Filtered(g, email) && email !in suppressed
  }

  lemma EmailsGrow(people: seq<Person>, p: Person)
    ensures Emails(people + [p]) == Emails(people) + {p.email}
  {
    var more := people + [p];
    forall e | e in Emails(people) ensures e in Emails(more) {
      var i :| 0 <= i < |people| && people[i].email == e;
      assert more[i].email == e;
    }
    assert more[|people|].email == p.email;
  }

  /**
   The table after an import: besides the old addresses exactly those are there that the file mentions, that are not
   filtered and not suppressed.
   */
  lemma {:induction false} ImportIsExact(g: Rules, suppressed: set<string>, people: seq<Person>, rows: seq<Line>,
                                         n: nat)
    requires n <= |rows|
    ensures RowByRow(g, suppressed, people, rows, n).seen == Mentioned(g, rows, n)
    ensures forall e :: e in Emails(RowByRow(g, suppressed, people, rows, n).people) <==>
                        e in Emails(people) || (e in Mentioned(g, rows, n) && Fits(g, suppressed, e))
  {
    if n > 0 {
      var at := RowByRow(g, suppressed, people, rows, n - 1);
      ImportIsExact(g, suppressed, people, rows, n - 1);
      MentionedGrows(g, rows, n - 1);
      RowIsExact(g, suppressed, at, rows[n - 1]);
      AddressesStep(g, suppressed, people, at, rows[n - 1], Mentioned(g, rows, n - 1));
    }
  }

  lemma AddressesStep(g: Rules, suppressed: set<string>, people: seq<Person>, at: Progress, line: Line,
                      mentioned: set<string>)
    requires at.seen == mentioned
    requires forall e :: e in Emails(at.people) <==> e in Emails(people) || (e in mentioned && Fits(g, suppressed, e))
    ensures var m := mentioned + if EmailOf(g, line).Some? then {EmailOf(g, line).value} else {};
            forall e :: e in Emails(OneRow(g, suppressed, at, line).people) <==>
                        e in Emails(people) || (e in m && Fits(g, suppressed, e))
  {
    RowIsExact(g, suppressed, at, line);
  }

  /**
   No address is there twice, old rows of the table are untouched, no suppressed address is added, and every row of
   the file is counted once.
   */
  lemma {:induction false} ImportAppends(g: Rules, suppressed: set<string>, people: seq<Person>, rows: seq<Line>,
                                         n: nat)
    requires n <= |rows|
    ensures var end := RowByRow(g, suppressed, people, rows, n);
            && (Unique(people) ==> Unique(end.people))
            && people <= end.people && |end.people| == |people| + end.counts.tally[Imported]
            && (forall i | |people| <= i < |end.people| ::
                 end.people[i].email !in suppressed && end.people[i].list == g.list)
            && end.counts.total == n == |end.counts.tally| && end.counts.tally[RowError] == 0
  {
    if n > 0 {
      ImportAppends(g, suppressed, people, rows, n - 1);
      RowIsExact(g, suppressed, RowByRow(g, suppressed, people, rows, n - 1), rows[n - 1]);
      RowAppends(g, suppressed, RowByRow(g, suppressed, people, rows, n - 1), rows[n - 1]);
    }
  }

  lemma MentionedGrows(g: Rules, rows: seq<Line>, n: nat)
    requires n < |rows|
    ensures var e := EmailOf(g, rows[n]);
            Mentioned(g, rows, n + 1) == Mentioned(g, rows, n) + if e.Some? then {e.value} else {}
  {
  }

  lemma RowIsExact(g: Rules, suppressed: set<string>, at: Progress, line: Line)
    ensures var next, e := OneRow(g, suppressed, at, line), EmailOf(g, line);
            && next.seen == at.seen + (if e.Some? then {e.value} else {})
            && (forall x :: x in Emails(next.people) <==>
                  x in Emails(at.people) || (e == Some(x) && x !in at.seen && Fits(g, suppressed, x)))
            && (Unique(at.people) ==> Unique(next.people))
  {
    var e := EmailOf(g, line);
    if e.Some? {
      EmailsGrow(at.people, PersonOf(g, line, e.value));
      assert forall i | 0 <= i < |at.people| :: at.people[i].email in Emails(at.people);
    }
  }

  lemma RowAppends(g: Rules, suppressed: set<string>, at: Progress, line: Line)
    ensures var next := OneRow(g, suppressed, at, line);
            && at.people <= next.people
            && |next.people| - |at.people| == next.counts.tally[Imported] - at.counts.tally[Imported]
            && (forall i | |at.people| <= i < |next.people| ::
                 next.people[i].email !in suppressed && next.people[i].list == g.list)
            && next.counts.total == at.counts.total + 1 && |next.counts.tally| == |at.counts.tally| + 1
            && next.counts.tally[RowError] == at.counts.tally[RowError]
  {
  }

  // ----- What becomes of each row, in the terms of the file -----

  /** The first row of the file with this address. */
  predicate FirstWith(g: Rules, rows: seq<Line>, n: nat, email: string)
    requires n < |rows|
  {
    g.validate(rows[n].email) == Some(email) && forall m | 0 <= m < n :: g.validate(rows[m].email) != Some(email)
  }

  predicate IsFirst(g: Rules, rows: seq<Line>, n: nat)
    requires n < |rows|
  {
    g.validate(rows[n].email).Some? && FirstWith(g, rows, n, g.validate(rows[n].email).value)
  }

  /** Why a row ends as it does: the reasons are looked at in this order, and the first that applies is counted. */
  predicate EndsAs(g: Rules, suppressed: set<string>, before: seq<Person>, rows: seq<Line>, n: nat, o: Outcome)
    requires n < |rows|
  {
    var email := g.validate(rows[n].email);
    var addressed := IsFirst(g, rows, n) && !(g.applyFree && g.isFree(email.value));
    var known := email.Some? && exists i | 0 <= i < |before| :: before[i].email == email.value;
    match o
    case Unusable => email.None?
    case RepeatInFile => email.Some? && !IsFirst(g, rows, n)
    case FreeProvider => IsFirst(g, rows, n) && g.applyFree && g.isFree(email.value)
    case BarredAddress => addressed && email.value in suppressed
    case RepeatInTable => addressed && email.value !in suppressed && known
    case Imported => addressed && email.value !in suppressed && !known
    case RowError => false
  }

  /** A name is kept if it is given and not empty. */
  predicate Named(cell: Option<string>, name: Option<string>) {
    name == if cell.Some? && cell.value != "" then cell else None
  }

  /** The contact is what the row says of it, on the list imported into. */
  predicate TakenFrom(g: Rules, line: Line, p: Person) {
    && g.validate(line.email) == Some(p.email) && Named(line.first, p.first) && Named(line.last, p.last)
    && p.custom == line.custom && p.list == g.list
  }

  /** The rows that bring a contact, in the order of the file. */
  ghost predicate Bring(g: Rules, suppressed: set<string>, before: seq<Person>, rows: seq<Line>, m: nat, from: seq<nat>)
    requires m <= |rows|
  {
    && (forall i | 0 <= i < |from| :: from[i] < m && EndsAs(g, suppressed, before, rows, from[i], Imported))
    && (forall i, j | 0 <= i < j < |from| :: from[i] < from[j])
    && forall n: nat | n < m && EndsAs(g, suppressed, before, rows, n, Imported) :: n in from
  }

  /** The table is the old one followed by the contacts of those rows. */
  ghost predicate MadeFrom(g: Rules, before: seq<Person>, people: seq<Person>, rows: seq<Line>, from: seq<nat>)
    requires forall i | 0 <= i < |from| :: from[i] < |rows|
  {
    && |people| == |before| + |from| && before <= people
    && forall i | 0 <= i < |from| :: TakenFrom(g, rows[from[i]], people[|before| + i])
  }

  ghost predicate HoldsRows(g: Rules, suppressed: set<string>, before: seq<Person>, people: seq<Person>,
                            rows: seq<Line>, m: nat)
    requires m <= |rows|
  {
    exists from :: Bring(g, suppressed, before, rows, m, from) && MadeFrom(g, before, people, rows, from)
  }

  /** How many of the first `m` rows end so. */
  ghost function RowsEnding(g: Rules, suppressed: set<string>, before: seq<Person>, rows: seq<Line>, m: nat, o: Outcome)
    : set<nat>
    requires m <= |rows|
  {
    set n: nat | n < m && EndsAs(g, suppressed, before, rows, n, o)
  }

  lemma FirstMention(g: Rules, rows: seq<Line>, n: nat)
    requires n < |rows| && EmailOf(g, rows[n]).Some?
    ensures IsFirst(g, rows, n) <==> EmailOf(g, rows[n]).value !in Mentioned(g, rows, n)
  {
    var e := EmailOf(g, rows[n]).value;
    if !IsFirst(g, rows, n) {
      var m :| 0 <= m < n && g.validate(rows[m].email) == Some(e);
      assert EmailOf(g, rows[m]).Some?;
    }
  }

  /** The row ends as the specification counts it, and brings its contact exactly when it ends as imported. */
  ghost predicate Met(g: Rules, line: Line, at: Progress, next: Progress, o: Outcome, ends: bool, imported: bool) {
    && next.counts.tally[o] == at.counts.tally[o] + (if ends then 1 else 0)
    && (if imported
        then |next.people| == |at.people| + 1 && at.people <= next.people
             && TakenFrom(g, line, next.people[|at.people|])
        else next.people == at.people)
  }

  lemma RowMeets(g: Rules, suppressed: set<string>, before: seq<Person>, rows: seq<Line>, n: nat, o: Outcome,
                 at: Progress)
    requires n < |rows| && at.seen == Mentioned(g, rows, n)
    requires var e := EmailOf(g, rows[n]);
             e.Some? && IsFirst(g, rows, n) ==> (e.value in Emails(at.people) <==> e.value in Emails(before))
    ensures Met(g, rows[n], at, OneRow(g, suppressed, at, rows[n]), o, EndsAs(g, suppressed, before, rows, n, o),
                EndsAs(g, suppressed, before, rows, n, Imported))
  {
    if EmailOf(g, rows[n]).Some? { FirstMention(g, rows, n); }
  }

  lemma RowEnds(g: Rules, suppressed: set<string>, before: seq<Person>, rows: seq<Line>, n: nat, o: Outcome)
    requires n < |rows|
    ensures Met(g, rows[n], RowByRow(g, suppressed, before, rows, n), RowByRow(g, suppressed, before, rows, n + 1), o,
                EndsAs(g, suppressed, before, rows, n, o), EndsAs(g, suppressed, before, rows, n, Imported))
  {
    ImportIsExact(g, suppressed, before, rows, n);
    if EmailOf(g, rows[n]).Some? { FirstMention(g, rows, n); }
    RowMeets(g, suppressed, before, rows, n, o, RowByRow(g, suppressed, before, rows, n));
  }

  ghost predicate Told(g: Rules, suppressed: set<string>, before: seq<Person>, rows: seq<Line>, m: nat, o: Outcome)
    requires m <= |rows|
  {
    RowByRow(g, suppressed, before, rows, m).counts.tally[o] == |RowsEnding(g, suppressed, before, rows, m, o)|
  }

  lemma NothingTold(g: Rules, suppressed: set<string>, before: seq<Person>, rows: seq<Line>, o: Outcome)
    ensures Told(g, suppressed, before, rows, 0, o)
  {
    assert RowsEnding(g, suppressed, before, rows, 0, o) == {};
  }

  lemma ToldMore(g: Rules, suppressed: set<string>, before: seq<Person>, rows: seq<Line>, m: nat, o: Outcome)
    requires m < |rows| && Told(g, suppressed, before, rows, m, o)
    ensures Told(g, suppressed, before, rows, m + 1, o)
  {
    RowEnds(g, suppressed, before, rows, m, o);
    EndingMore(g, suppressed, before, rows, m, o);
  }

  /** Every row is counted under the reason that applies to it. */
  lemma {:induction false} EveryRowIsTold(g: Rules, suppressed: set<string>, before: seq<Person>, rows: seq<Line>,
                                          m: nat, o: Outcome)
    requires m <= |rows|
    ensures Told(g, suppressed, before, rows, m, o)
  {
    if m == 0 {
      NothingTold(g, suppressed, before, rows, o);
    } else {
      EveryRowIsTold(g, suppressed, before, rows, m - 1, o);
      ToldMore(g, suppressed, before, rows, m - 1, o);
    }
  }

  /** Each counter is the number of rows with that reason. */
  ghost predicate TellsEveryRow(g: Rules, suppressed: set<string>, before: seq<Person>, rows: seq<Line>, c: Counts) {
    forall o :: c.tally[o] == |RowsEnding(g, suppressed, before, rows, |rows|, o)|
  }

  lemma ReportTells(g: Rules, suppressed: set<string>, before: seq<Person>, rows: seq<Line>, c: Counts, failures: nat)
    requires Reports(g, suppressed, before, rows, c, failures)
    ensures failures == 0 ==> TellsEveryRow(g, suppressed, before, rows, c)
  {
    forall o ensures failures == 0 ==> c.tally[o] == |RowsEnding(g, suppressed, before, rows, |rows|, o)| {
      EveryRowIsTold(g, suppressed, before, rows, |rows|, o);
    }
  }

  lemma EndingMore(g: Rules, suppressed: set<string>, before: seq<Person>, rows: seq<Line>, m: nat, o: Outcome)
    requires m < |rows|
    ensures |RowsEnding(g, suppressed, before, rows, m + 1, o)| ==
            |RowsEnding(g, suppressed, before, rows, m, o)| + if EndsAs(g, suppressed, before, rows, m, o) then 1 else 0
  {
    var was := RowsEnding(g, suppressed, before, rows, m, o);
    assert RowsEnding(g, suppressed, before, rows, m + 1, o) ==
           if EndsAs(g, suppressed, before, rows, m, o) then was + {m} else was;
  }

  /** The table after an import is the old one and the contacts of the rows imported, as the rows give them. */
  lemma {:induction false} ImportHoldsRows(g: Rules, suppressed: set<string>, before: seq<Person>, rows: seq<Line>,
                                           m: nat)
    requires m <= |rows|
    ensures HoldsRows(g, suppressed, before, RowByRow(g, suppressed, before, rows, m).people, rows, m)
  {
    if m == 0 {
      NothingHeld(g, suppressed, before, rows);
    } else {
      ImportHoldsRows(g, suppressed, before, rows, m - 1);
      RowHeld(g, suppressed, before, rows, m - 1);
    }
  }

  lemma RowHeld(g: Rules, suppressed: set<string>, before: seq<Person>, rows: seq<Line>, m: nat)
    requires m < |rows| && HoldsRows(g, suppressed, before, RowByRow(g, suppressed, before, rows, m).people, rows, m)
    ensures HoldsRows(g, suppressed, before, RowByRow(g, suppressed, before, rows, m + 1).people, rows, m + 1)
  {
    RowEnds(g, suppressed, before, rows, m, Imported);
    HoldMore(g, suppressed, before, RowByRow(g, suppressed, before, rows, m).people,
             RowByRow(g, suppressed, before, rows, m + 1).people, rows, m);
  }

  lemma NothingHeld(g: Rules, suppressed: set<string>, before: seq<Person>, rows: seq<Line>)
    ensures HoldsRows(g, suppressed, before, before, rows, 0)
  {
    assert Bring(g, suppressed, before, rows, 0, []) && MadeFrom(g, before, before, rows, []);
  }

  lemma HoldMore(g: Rules, suppressed: set<string>, before: seq<Person>, people: seq<Person>, next: seq<Person>,
                 rows: seq<Line>, m: nat)
    requires m < |rows| && HoldsRows(g, suppressed, before, people, rows, m)
    requires if EndsAs(g, suppressed, before, rows, m, Imported)
             then |next| == |people| + 1 && people <= next && TakenFrom(g, rows[m], next[|people|]) else next == people
    ensures HoldsRows(g, suppressed, before, next, rows, m + 1)
  {
    var from :| Bring(g, suppressed, before, rows, m, from) && MadeFrom(g, before, people, rows, from);
    BringMore(g, suppressed, before, rows, m, from);
    if EndsAs(g, suppressed, before, rows, m, Imported) {
      MadeMore(g, before, people, next, rows, from, m);
    }
  }

  lemma MadeMore(g: Rules, before: seq<Person>, people: seq<Person>, next: seq<Person>, rows: seq<Line>,
                 from: seq<nat>, m: nat)
    requires m < |rows| && forall i | 0 <= i < |from| :: from[i] < |rows|
    requires MadeFrom(g, before, people, rows, from)
    requires |next| == |people| + 1 && people <= next && TakenFrom(g, rows[m], next[|people|])
    ensures MadeFrom(g, before, next, rows, from + [m])
  {
    assert forall i | 0 <= i < |people| :: next[i] == people[i];
  }

  lemma BringMore(g: Rules, suppressed: set<string>, before: seq<Person>, rows: seq<Line>, m: nat, from: seq<nat>)
    requires m < |rows| && Bring(g, suppressed, before, rows, m, from)
    ensures Bring(g, suppressed, before, rows, m + 1,
                  if EndsAs(g, suppressed, before, rows, m, Imported) then from + [m] else from)
  {
  }

  // ----- The batched import -----

  /** What a list records of its last import. */
  datatype ListInfo = ListInfo(contactCount: nat, summary: Counts, freeFilter: bool)

  function InList(people: seq<Person>, list: int): nat {
    |set i | 0 <= i < |people| && people[i].list == list|
  }

  /** What a row did about the batch. */
  datatype Flush = Waited | Flushed | Raised

  class Directory {
    var people: seq<Person>
    var suppressed: set<string>
    var lists: map<int, ListInfo>

    /**
     One transaction. `fault` makes it raise after that many entries, and a contact the database refuses makes it
     raise at the end: the inserts are rolled back, the counters are not.
     */
    method FlushBatch(g: Rules, batch: seq<Person>, counts: Counts, fault: Option<nat>) returns (c: Counts, ok: bool)
      modifies this`people
      ensures ok <==> batch == [] ||
                      (fault.None? && !BringsRefused(g, |old(people)|, AdmitAll(suppressed, old(people), batch).0))
      ensures c.total == counts.total
      ensures ok ==> people == AdmitAll(suppressed, old(people), batch).0
                     && c.tally == counts.tally + AdmitAll(suppressed, old(people), batch).1
      ensures !ok ==> people == old(people) && exists k | 0 <= k <= |batch| ::
                  c.tally == counts.tally + AdmitAll(suppressed, old(people), batch[..k]).1
    {
      c, ok := counts, true;
      if batch == [] { return; }
      var session, done;
      session, c, done := AddEntries(batch, counts, fault);
      assert batch[..|batch|] == batch;
      if done < |batch| || fault.Some? || BringsRefused(g, |people|, session) { return c, false; }
      people := session;
    }

    /**
     The entries of a batch meet two look-ups made beforehand; `session` is the table with what they add. An exception
     stops after `done` of them.
     */
    method AddEntries(batch: seq<Person>, counts: Counts, fault: Option<nat>)
      returns (session: seq<Person>, c: Counts, done: nat)
      ensures done == if fault.Some? && fault.value < |batch| then fault.value else |batch|
      ensures session == AdmitAll(suppressed, people, batch[..done]).0 && c.total == counts.total
      ensures c.tally == counts.tally + AdmitAll(suppressed, people, batch[..done]).1
    {
      var emails := Emails(batch);
      var existing := set e | e in emails && e in Emails(people);
      var blocked := set e | e in emails && e in suppressed;
      session, c := people, counts;
      for i := 0 to |batch|
        invariant Entered(batch, i, counts, session, c) && LooksUp(emails, existing, session)
        invariant fault.Some? ==> i <= fault.value
      {
        if fault == Some(i) { return session, c, i; }
        session, c, existing := EnterOne(batch, i, counts, session, c, emails, existing, blocked);
      }
      done := |batch|;
    }

    /** The first `i` entries of the batch have been added to the session. */
    ghost predicate Entered(batch: seq<Person>, i: nat, counts: Counts, session: seq<Person>, c: Counts)
      reads this
    {
      && i <= |batch| && session == AdmitAll(suppressed, people, batch[..i]).0
      && c.total == counts.total && c.tally == counts.tally + AdmitAll(suppressed, people, batch[..i]).1
    }

    method EnterOne(batch: seq<Person>, i: nat, ghost counts: Counts, session: seq<Person>, c: Counts,
                    ghost emails: set<string>, existing: set<string>, blocked: set<string>)
      returns (after: seq<Person>, d: Counts, known: set<string>)
      requires i < |batch| && Entered(batch, i, counts, session, c)
      requires emails == Emails(batch) && LooksUp(emails, existing, session)
      requires forall e :: e in blocked <==> e in emails && e in suppressed
      ensures Entered(batch, i + 1, counts, after, d) && LooksUp(emails, known, after)
    {
      var p := batch[i];
      assert p.email in emails;
      NextEntry(suppressed, people, batch, i);
      ghost var added;
      after, d, known, added := AddEntry(p, session, c, existing, blocked);
    }

    method AddEntry(p: Person, session: seq<Person>, counts: Counts, existing: set<string>, blocked: set<string>)
      returns (after: seq<Person>, c: Counts, known: set<string>, ghost added: set<string>)
      requires p.email in blocked <==> p.email in suppressed
      requires p.email in existing <==> p.email in Emails(session)
      ensures after == Admit(suppressed, session, p).0
      ensures c == counts.(tally := counts.tally + Admit(suppressed, session, p).1)
      ensures known == existing + added && Emails(after) == Emails(session) + added
    {
      after, known := session, existing;
      added := {};
      if p.email in blocked {
        c := counts.(tally := counts.tally + multiset{BarredAddress});
      } else if p.email in existing {
        c := counts.(tally := counts.tally + multiset{RepeatInTable});
      } else {
        EmailsGrow(session, p);
        after := session + [p];
        known := existing + {p.email};
        added := {p.email};
        c := counts.(tally := counts.tally + multiset{Imported});
      }
    }

    /**
     One pass of the row loop. A row that makes the batch full sets off a flush; if that raises, the batch stays
     pending and the row counts as an error.
     */
    method ImportRow(g: Rules, ghost before: seq<Person>, rows: seq<Line>, i: nat, seen: set<string>,
                     pending: seq<Person>,
                     counts: Counts, ghost waste: multiset<Outcome>, batchSize: nat, fault: Option<nat>)
      returns (c: Counts, known: set<string>, batch: seq<Person>, flush: Flush, ghost more: multiset<Outcome>)
      requires i < |rows|
      requires Behind(RowByRow(g, suppressed, before, rows, i), suppressed, people, seen, pending, counts, waste)
      modifies this`people
      ensures Behind(RowByRow(g, suppressed, before, rows, i + 1), suppressed, people, known, batch, c, more)
      ensures more[RowError] == waste[RowError] + if flush.Raised? then 1 else 0
      ensures people == if flush.Flushed? then RowByRow(g, suppressed, before, rows, i + 1).people else old(people)
      ensures var next := RowByRow(g, suppressed, before, rows, i + 1).people;
              && (flush.Flushed? ==> fault.None? && !BringsRefused(g, |old(people)|, next))
              && (flush.Raised? ==> batch != [] && (fault.Some? || BringsRefused(g, |old(people)|, next)))
      ensures flush.Waited? ==> pending <= batch
    {
      ghost var next := RowByRow(g, suppressed, before, rows, i + 1);
      RowKeepsBehind(g, RowByRow(g, suppressed, before, rows, i), suppressed, people, seen, pending, counts, waste,
                     rows[i]);
      c, known, batch, flush, more := counts.(total := counts.total + 1), seen, pending, Waited, waste;
      match FateOf(g, seen, rows[i])
      case Invalid => c := c.(tally := c.tally + multiset{Unusable});
      case InFile => c := c.(tally := c.tally + multiset{RepeatInFile});
      case Free(email) => known, c := seen + {email}, c.(tally := c.tally + multiset{FreeProvider});
      case Candidate(p) =>
        known, batch := seen + {p.email}, pending + [p];
        if |batch| >= batchSize {
          FlushKeepsBehind(next, suppressed, people, known, batch, c, waste);
          var flushed, ok := FlushBatch(g, batch, c, fault);
          if ok {
            c, batch, flush := flushed, [], Flushed;
          } else {
            more := FailureKeepsBehind(next, suppressed, people, known, batch, c, waste, flushed);
            c, flush := flushed.(tally := flushed.tally + multiset{RowError}), Raised;
          }
        }
    }

    /** After `i` rows, `committed` of which have met the tables. */
    ghost predicate Reading(g: Rules, before: seq<Person>, rows: seq<Line>, i: nat, committed: nat, seen: set<string>,
                            pending: seq<Person>, counts: Counts, waste: multiset<Outcome>,
                            faults: seq<Option<nat>>, raised: seq<bool>)
      reads this
    {
      && committed <= i <= |rows| && people == RowByRow(g, suppressed, before, rows, committed).people
      && Behind(RowByRow(g, suppressed, before, rows, i), suppressed, people, seen, pending, counts, waste)
      && Tracked(raised, pending, waste[RowError], people == before)
      && !BringsRefused(g, |before|, people)
      && Explained(faults, raised, BringsRefused(g, |before|, RowByRow(g, suppressed, before, rows, i).people))
    }

    method NextRow(g: Rules, ghost before: seq<Person>, rows: seq<Line>, i: nat, ghost done: nat, seen: set<string>,
                   pending: seq<Person>, counts: Counts, ghost waste: multiset<Outcome>, batchSize: nat,
                   faults: seq<Option<nat>>, flush: nat, ghost raised: seq<bool>)
      returns (c: Counts, known: set<string>, batch: seq<Person>, flushes: nat,
               ghost committed: nat, ghost more: multiset<Outcome>, ghost log: seq<bool>)
      requires i < |rows| && Reading(g, before, rows, i, done, seen, pending, counts, waste, faults, raised)
      requires |raised| == flush
      modifies this`people
      ensures Reading(g, before, rows, i + 1, committed, known, batch, c, more, faults, log) && |log| == flushes
    {
      ghost var untouched := people == before;
      var did;
      c, known, batch, did, more :=
        ImportRow(g, before, rows, i, seen, pending, counts, waste, batchSize, FaultAt(faults, flush));
      TrackOneMore(raised, pending, batch, waste[RowError], untouched, people == before, did);
      ExplainOneMore(g, suppressed, before, rows, done, i, faults, raised, did);
      log := Logged(raised, did);
      flushes := if did.Waited? then flush else flush + 1;
      committed := if did.Flushed? then i + 1 else done;
    }

    /** The row loop. */
    method ReadRows(g: Rules, rows: seq<Line>, batchSize: nat, faults: seq<Option<nat>>)
      returns (counts: Counts, pending: seq<Person>, flushes: nat,
               ghost seen: set<string>, ghost committed: nat, ghost waste: multiset<Outcome>, ghost raised: seq<bool>)
      modifies this`people
      ensures Reading(g, old(people), rows, |rows|, committed, seen, pending, counts, waste, faults, raised)
      ensures |raised| == flushes
    {
      var known;
      counts, known, pending, flushes := Counts(0, multiset{}), {}, [], 0;
      committed, waste, raised := 0, multiset{}, [];
      for i := 0 to |rows|
        invariant Reading(g, old(people), rows, i, committed, known, pending, counts, waste, faults, raised)
        invariant |raised| == flushes
      {
        counts, known, pending, flushes, committed, waste, raised :=
          NextRow(g, old(people), rows, i, committed, known, pending, counts, waste, batchSize, faults, flushes,
                  raised);
      }
      seen := known;
    }

    /** The flush after the last row, if a batch is pending. */
    method FlushRest(g: Rules, ghost at: Progress, ghost seen: set<string>, pending: seq<Person>, counts: Counts,
                     ghost waste: multiset<Outcome>, faults: seq<Option<nat>>, flush: nat, ghost raised: seq<bool>,
                     ghost untouched: bool)
      returns (c: Counts, ok: bool, ghost log: seq<bool>)
      requires Behind(at, suppressed, people, seen, pending, counts, waste)
      requires |raised| == flush && Tracked(raised, pending, waste[RowError], untouched)
      modifies this`people
      ensures log == if pending == [] then raised else raised + [!ok]
      ensures pending != [] ==> (!ok <==> FaultAt(faults, flush).Some? || BringsRefused(g, |old(people)|, at.people))
      ensures !ok <==> log != [] && log[|log| - 1]
      ensures ok ==>
                && people == at.people && Behind(at, suppressed, people, seen, [], c, waste)
                && waste[RowError] == Failures(log)
      ensures !ok ==> people == old(people)
      ensures AllRaised(log) ==> untouched && people == old(people)
    {
      FlushKeepsBehind(at, suppressed, people, seen, pending, counts, waste);
      c, ok := FlushBatch(g, pending, counts, FaultAt(faults, flush));
      var did := if ok then Flushed else Raised;
      log := raised;
      if pending != [] {
        TrackOneMore(raised, pending, pending, waste[RowError], untouched, untouched && !ok, did);
        log := Logged(raised, did);
      }
    }

    /**
     The import. `faults` lists the outages that meet the flushes; the result None stands for the exception of the last
     flush. `committed` is how many rows have met the tables, and `raised` tells of each flush whether it failed.

     The upload raises if and only if the file brings a contact the database refuses, or an outage meets the last
     flush. Nothing refused is ever committed, so that what is committed ends before the first refused row.
     */
    method ImportIntoList(g: Rules, rows: seq<Line>, batchSize: nat, faults: seq<Option<nat>>)
      returns (r: Option<Counts>, ghost committed: nat, ghost raised: seq<bool>)
      requires batchSize >= 1
      modifies this`people, this`lists
      ensures committed <= |rows| && people == RowByRow(g, suppressed, old(people), rows, committed).people
      ensures HoldsRows(g, suppressed, old(people), people, rows, committed)
      ensures r.Some? && Failures(raised) == 0 ==> TellsEveryRow(g, suppressed, old(people), rows, r.value)
      ensures r.None? <==> SomeRowRefused(g, suppressed, old(people), rows, |rows|)
                           || (raised != [] && FaultAt(faults, |raised| - 1).Some?)
      ensures r.None? <==> raised != [] && raised[|raised| - 1]
      ensures !BringsRefused(g, |old(people)|, people)
      ensures forall n | 0 <= n < |rows| && IsRefusedRow(g, suppressed, old(people), rows, n) :: committed <= n
      ensures Explained(faults, raised, SomeRowRefused(g, suppressed, old(people), rows, |rows|))
      ensures AllRaised(raised) ==> people == old(people)
      ensures r.None? ==> lists == old(lists)
      ensures r.Some? ==> committed == |rows| && Reports(g, suppressed, old(people), rows, r.value, Failures(raised))
      ensures r.Some? ==> lists == if g.list in old(lists)
                                   then old(lists)[g.list := ListInfo(InList(people, g.list), r.value, g.applyFree)]
                                   else old(lists)
    {
      var counts, pending, flushes;
      ghost var seen, waste, log;
      counts, pending, flushes, seen, committed, waste, log := ReadRows(g, rows, batchSize, faults);
      ghost var done := people;
      var c, ok;
      c, ok, raised := FlushRest(g, RowByRow(g, suppressed, old(people), rows, |rows|), seen, pending, counts, waste,
                                 faults, flushes, log, people == old(people));
      LastFlush(g, suppressed, old(people), rows, committed, done, pending, faults, log, raised, ok);
      committed := if ok then |rows| else committed;
      FileIsRefused(g, suppressed, old(people), rows, |rows|);
      EndsBeforeRefused(g, suppressed, old(people), rows, committed);
      ImportHoldsRows(g, suppressed, old(people), rows, committed);
      if !ok { return None, committed, raised; }
      Settled(g, suppressed, old(people), rows, people, seen, c, waste);
      ReportTells(g, suppressed, old(people), rows, c, Failures(raised));
      Finalize(g.list, c, g.applyFree);
      r := Some(c);
    }

    method Finalize(list: int, counts: Counts, applyFree: bool)
      modifies this`lists
      ensures lists == if list in old(lists)
                       then old(lists)[list := ListInfo(InList(people, list), counts, applyFree)] else old(lists)
    {
      if list !in lists { return; }
      lists := lists[list := ListInfo(InList(people, list), counts, applyFree)];
    }
  }

  /** `existing` answers for the addresses of the batch whether they are in the session. */
  ghost predicate LooksUp(emails: set<string>, existing: set<string>, session: seq<Person>) {
    forall e | e in emails :: e in existing <==> e in Emails(session)
  }

  /** Flushes beyond those listed succeed. */
  function FaultAt(faults: seq<Option<nat>>, i: nat): Option<nat> {
    if i < |faults| then faults[i] else None
  }

  /** How many flushes raised. */
  function Failures(raised: seq<bool>): nat {
    if raised == [] then 0 else Failures(raised[..|raised| - 1]) + if raised[|raised| - 1] then 1 else 0
  }

  ghost predicate AllRaised(raised: seq<bool>) {
    forall i | 0 <= i < |raised| :: raised[i]
  }

  /** Every outage makes its flush raise; nothing else does but a refused contact. */
  ghost predicate Explained(faults: seq<Option<nat>>, raised: seq<bool>, refused: bool) {
    forall i | 0 <= i < |raised| ::
      (FaultAt(faults, i).Some? ==> raised[i]) && (raised[i] ==> FaultAt(faults, i).Some? || refused)
  }

  function Logged(raised: seq<bool>, flush: Flush): seq<bool> {
    if flush.Waited? then raised else raised + [flush.Raised?]
  }

  /** What the flushes so far left behind. */
  ghost predicate Tracked(raised: seq<bool>, pending: seq<Person>, errors: nat, untouched: bool) {
    && errors == Failures(raised)
    && (pending == [] && raised != [] ==> !raised[|raised| - 1])
    && (AllRaised(raised) ==> untouched)
  }

  lemma TrackOneMore(raised: seq<bool>, was: seq<Person>, pending: seq<Person>, errors: nat,
                     untouched: bool, still: bool, flush: Flush)
    requires Tracked(raised, was, errors, untouched)
    requires flush.Raised? ==> pending != []
    requires flush.Waited? ==> was <= pending
    requires untouched && !flush.Flushed? ==> still
    ensures Tracked(Logged(raised, flush), pending, errors + if flush.Raised? then 1 else 0, still)
  {
    var log := Logged(raised, flush);
    if !flush.Waited? { assert log[..|log| - 1] == raised; }
    if AllRaised(log) { assert forall i | 0 <= i < |raised| :: raised[i] == log[i]; }
  }

  /** A later table continues an earlier one. */
  lemma {:induction false} RowsExtend(g: Rules, suppressed: set<string>, people: seq<Person>, rows: seq<Line>,
                                      n: nat, m: nat)
    requires n <= m <= |rows|
    ensures people <= RowByRow(g, suppressed, people, rows, n).people <= RowByRow(g, suppressed, people, rows, m).people
    decreases m
  {
    if n < m {
      RowsExtend(g, suppressed, people, rows, n, m - 1);
      RowAppends(g, suppressed, RowByRow(g, suppressed, people, rows, m - 1), rows[m - 1]);
    } else if n > 0 {
      RowsExtend(g, suppressed, people, rows, n - 1, n - 1);
      RowAppends(g, suppressed, RowByRow(g, suppressed, people, rows, n - 1), rows[n - 1]);
    }
  }

  lemma AfterCleanPart(g: Rules, n: nat, people: seq<Person>, end: seq<Person>)
    requires n <= |people| && people <= end && !BringsRefused(g, n, people)
    ensures BringsRefused(g, n, end) <==> BringsRefused(g, |people|, end)
  {
    forall i | n <= i < |people| ensures !g.refuses(end[i]) { assert end[i] == people[i]; }
  }

  lemma RefusedLater(g: Rules, n: nat, m: nat, people: seq<Person>)
    requires n <= m && BringsRefused(g, m, people)
    ensures BringsRefused(g, n, people)
  {
  }

  lemma RefusedStays(g: Rules, n: nat, people: seq<Person>, end: seq<Person>)
    requires people <= end && BringsRefused(g, n, people)
    ensures BringsRefused(g, n, end)
  {
    var i :| n <= i < |people| && g.refuses(people[i]);
    assert end[i] == people[i];
  }

  lemma ExplainOneMore(g: Rules, suppressed: set<string>, before: seq<Person>, rows: seq<Line>, done: nat, i: nat,
                       faults: seq<Option<nat>>, raised: seq<bool>, flush: Flush)
    requires done <= i < |rows|
    requires var people := RowByRow(g, suppressed, before, rows, done).people;
             var next := RowByRow(g, suppressed, before, rows, i + 1).people;
             && !BringsRefused(g, |before|, people)
             && (flush.Flushed? ==> FaultAt(faults, |raised|).None? && !BringsRefused(g, |people|, next))
             && (flush.Raised? ==> FaultAt(faults, |raised|).Some? || BringsRefused(g, |people|, next))
    requires Explained(faults, raised, BringsRefused(g, |before|, RowByRow(g, suppressed, before, rows, i).people))
    ensures var next := RowByRow(g, suppressed, before, rows, i + 1).people;
            && Explained(faults, Logged(raised, flush), BringsRefused(g, |before|, next))
            && (flush.Flushed? ==> !BringsRefused(g, |before|, next))
  {
    var people := RowByRow(g, suppressed, before, rows, done).people;
    var next := RowByRow(g, suppressed, before, rows, i + 1).people;
    var now := RowByRow(g, suppressed, before, rows, i).people;
    RowsExtend(g, suppressed, before, rows, done, i + 1);
    RowsExtend(g, suppressed, before, rows, i, i + 1);
    AfterCleanPart(g, |before|, people, next);
    if BringsRefused(g, |before|, now) { RefusedStays(g, |before|, now, next); }
    ExplainedLonger(faults, raised, flush, BringsRefused(g, |before|, now), BringsRefused(g, |before|, next));
  }

  lemma ExplainedLonger(faults: seq<Option<nat>>, raised: seq<bool>, flush: Flush, was: bool, refused: bool)
    requires Explained(faults, raised, was) && (was ==> refused)
    requires flush.Flushed? ==> FaultAt(faults, |raised|).None?
    requires flush.Raised? ==> FaultAt(faults, |raised|).Some? || refused
    ensures Explained(faults, Logged(raised, flush), refused)
  {
  }

  /** Row `n` brings a contact the database refuses. */
  ghost predicate RefusedAt(g: Rules, suppressed: set<string>, before: seq<Person>, rows: seq<Line>, n: nat)
    requires n < |rows|
  {
    BringsRefused(g, |RowByRow(g, suppressed, before, rows, n).people|,
                  RowByRow(g, suppressed, before, rows, n + 1).people)
  }

  lemma RefusedIsKept(g: Rules, suppressed: set<string>, before: seq<Person>, rows: seq<Line>, n: nat, m: nat)
    requires n < m <= |rows| && RefusedAt(g, suppressed, before, rows, n)
    ensures BringsRefused(g, |before|, RowByRow(g, suppressed, before, rows, m).people)
  {
    var now := RowByRow(g, suppressed, before, rows, n).people;
    var next := RowByRow(g, suppressed, before, rows, n + 1).people;
    RowsExtend(g, suppressed, before, rows, n, n + 1);
    RowsExtend(g, suppressed, before, rows, n + 1, m);
    RefusedLater(g, |before|, |now|, next);
    RefusedStays(g, |before|, next, RowByRow(g, suppressed, before, rows, m).people);
  }

  lemma EndsBeforeRefused(g: Rules, suppressed: set<string>, before: seq<Person>, rows: seq<Line>, committed: nat)
    requires committed <= |rows| && !BringsRefused(g, |before|, RowByRow(g, suppressed, before, rows, committed).people)
    ensures forall n | 0 <= n < |rows| && IsRefusedRow(g, suppressed, before, rows, n) :: committed <= n
  {
    forall n | 0 <= n < |rows| && IsRefusedRow(g, suppressed, before, rows, n) ensures committed <= n {
      RefusedRow(g, suppressed, before, rows, n);
      if committed > n { RefusedIsKept(g, suppressed, before, rows, n, committed); }
    }
  }

  lemma LastFlush(g: Rules, suppressed: set<string>, before: seq<Person>, rows: seq<Line>, committed: nat,
                  people: seq<Person>, pending: seq<Person>, faults: seq<Option<nat>>,
                  log: seq<bool>, raised: seq<bool>, ok: bool)
    requires committed <= |rows| && people == RowByRow(g, suppressed, before, rows, committed).people
    requires !BringsRefused(g, |before|, people)
    requires var end := RowByRow(g, suppressed, before, rows, |rows|).people;
             && Explained(faults, log, BringsRefused(g, |before|, end))
             && raised == (if pending == [] then log else log + [!ok])
             && (pending != [] ==> (!ok <==> FaultAt(faults, |log|).Some? || BringsRefused(g, |people|, end)))
             && (pending == [] ==> ok && people == end && (log != [] ==> !log[|log| - 1]))
    ensures var end := RowByRow(g, suppressed, before, rows, |rows|).people;
            && Explained(faults, raised, BringsRefused(g, |before|, end))
            && (!ok <==> BringsRefused(g, |before|, end) || (raised != [] && FaultAt(faults, |raised| - 1).Some?))
            && (ok ==> !BringsRefused(g, |before|, end))
  {
    var end := RowByRow(g, suppressed, before, rows, |rows|).people;
    RowsExtend(g, suppressed, before, rows, committed, |rows|);
    AfterCleanPart(g, |before|, people, end);
    if pending != [] {
      var flush := if ok then Flushed else Raised;
      assert raised == Logged(log, flush);
      ExplainedLonger(faults, log, flush, BringsRefused(g, |before|, end), BringsRefused(g, |before|, end));
    }
  }

  /**
   The batched import is behind the specification by exactly the pending entries; `waste` is what failed flushes
   counted too much.
   */
  ghost predicate Behind(at: Progress, suppressed: set<string>, people: seq<Person>, seen: set<string>,
                         pending: seq<Person>,
                         counts: Counts, waste: multiset<Outcome>)
  {
    && at.seen == seen && at.people == AdmitAll(suppressed, people, pending).0 && at.counts.total == counts.total
    && counts.tally + AdmitAll(suppressed, people, pending).1 == at.counts.tally + waste
    && (waste[RowError] == 0 ==> waste == multiset{})
  }

  lemma UnionShifts(a: multiset<Outcome>, b: multiset<Outcome>, c: multiset<Outcome>, d: multiset<Outcome>,
                    e: multiset<Outcome>)
    requires a + c == b + d
    ensures (a + e) + c == (b + e) + d
    ensures a + (c + e) == (b + e) + d
    ensures (a + e) + c == b + (d + e)
  {
    assert (a + e) + c == (a + c) + e;
    assert a + (c + e) == (a + c) + e;
    assert (b + e) + d == (b + d) + e;
    assert b + (d + e) == (b + d) + e;
  }

  lemma RowKeepsBehind(g: Rules, at: Progress, suppressed: set<string>, people: seq<Person>, seen: set<string>,
                       pending: seq<Person>, counts: Counts, waste: multiset<Outcome>, line: Line)
    requires Behind(at, suppressed, people, seen, pending, counts, waste)
    ensures var next, n := OneRow(g, suppressed, at, line), counts.total + 1;
            match FateOf(g, seen, line)
            case Invalid =>
              Behind(next, suppressed, people, seen, pending, Counts(n, counts.tally + multiset{Unusable}), waste)
            case InFile =>
              Behind(next, suppressed, people, seen, pending, Counts(n, counts.tally + multiset{RepeatInFile}), waste)
            case Free(e) =>
              Behind(next, suppressed, people, seen + {e}, pending,
                     Counts(n, counts.tally + multiset{FreeProvider}), waste)
            case Candidate(p) =>
              Behind(next, suppressed, people, seen + {p.email}, pending + [p], Counts(n, counts.tally), waste)
  {
    var sum := AdmitAll(suppressed, people, pending).1;
    match FateOf(g, seen, line)
    case Invalid => UnionShifts(counts.tally, at.counts.tally, sum, waste, multiset{Unusable});
    case InFile => UnionShifts(counts.tally, at.counts.tally, sum, waste, multiset{RepeatInFile});
    case Free(e) => UnionShifts(counts.tally, at.counts.tally, sum, waste, multiset{FreeProvider});
    case Candidate(p) =>
      AdmitOneMore(suppressed, people, pending, p);
      UnionShifts(counts.tally, at.counts.tally, sum, waste, Admit(suppressed, at.people, p).1);
  }

  lemma FlushKeepsBehind(at: Progress, suppressed: set<string>, people: seq<Person>, seen: set<string>,
                         pending: seq<Person>, counts: Counts, waste: multiset<Outcome>)
    requires Behind(at, suppressed, people, seen, pending, counts, waste)
    ensures var met := AdmitAll(suppressed, people, pending);
            && met.0 == at.people
            && Behind(at, suppressed, met.0, seen, [], Counts(counts.total, counts.tally + met.1), waste)
  {
    var all := counts.tally + AdmitAll(suppressed, people, pending).1;
    assert all + multiset{} == all;
  }

  /**
   The counters after an import with so many failed flushes: those of the row-by-row import, with every row under
   exactly one outcome, if and only if none failed.
   */
  ghost predicate Reports(g: Rules, suppressed: set<string>, before: seq<Person>, rows: seq<Line>, c: Counts,
                          failures: nat) {
    && c.total == |rows| && c.tally[RowError] == failures
    && (c == RowByRow(g, suppressed, before, rows, |rows|).counts <==> failures == 0)
    && (|c.tally| == c.total <==> failures == 0)
  }

  lemma FailureKeepsBehind(at: Progress, suppressed: set<string>, people: seq<Person>, seen: set<string>,
                           pending: seq<Person>,
                           counts: Counts, waste: multiset<Outcome>, c: Counts) returns (more: multiset<Outcome>)
    requires Behind(at, suppressed, people, seen, pending, counts, waste) && c.total == counts.total
    requires exists k | 0 <= k <= |pending| :: c.tally == counts.tally + AdmitAll(suppressed, people, pending[..k]).1
    ensures Behind(at, suppressed, people, seen, pending, c.(tally := c.tally + multiset{RowError}), more)
    ensures more[RowError] == waste[RowError] + 1
  {
    var k :| 0 <= k <= |pending| && c.tally == counts.tally + AdmitAll(suppressed, people, pending[..k]).1;
    var part := AdmitAll(suppressed, people, pending[..k]).1;
    OnlyTableOutcomes(suppressed, people, pending[..k]);
    UnionShifts(counts.tally, at.counts.tally, AdmitAll(suppressed, people, pending).1, waste,
                part + multiset{RowError});
    assert counts.tally + (part + multiset{RowError}) == c.tally + multiset{RowError};
    more := waste + (part + multiset{RowError});
  }

  lemma OnlyTableOutcomes(suppressed: set<string>, people: seq<Person>, batch: seq<Person>)
    ensures AdmitAll(suppressed, people, batch).1[RowError] == 0
  {
  }

  /** With nothing pending the counts are those of the specification plus the waste. */
  lemma Settled(g: Rules, suppressed: set<string>, before: seq<Person>, rows: seq<Line>, people: seq<Person>,
                seen: set<string>, c: Counts, waste: multiset<Outcome>)
    requires Behind(RowByRow(g, suppressed, before, rows, |rows|), suppressed, people, seen, [], c, waste)
    ensures Reports(g, suppressed, before, rows, c, waste[RowError])
  {
    ImportAppends(g, suppressed, before, rows, |rows|);
    var tally := RowByRow(g, suppressed, before, rows, |rows|).counts.tally;
    assert c.tally + multiset{} == c.tally == tally + waste;
    assert |c.tally| == |tally| + |waste|;
    if waste[RowError] == 0 {
      assert tally + multiset{} == tally;
    } else {
      assert RowError in waste;
      assert |waste| > 0;
    }
  }

  // ----- Which files are refused -----

  /** The row is the first of the file with a new address that may be added, and the database refuses its contact. */
  predicate IsRefusedRow(g: Rules, suppressed: set<string>, before: seq<Person>, rows: seq<Line>, n: nat)
    requires n < |rows|
  {
    var e := EmailOf(g, rows[n]);
    && e.Some? && e.value !in Mentioned(g, rows, n) && Fits(g, suppressed, e.value) && e.value !in Emails(before)
    && g.refuses(PersonOf(g, rows[n], e.value))
  }

  lemma RefusedRow(g: Rules, suppressed: set<string>, before: seq<Person>, rows: seq<Line>, n: nat)
    requires n < |rows|
    ensures RefusedAt(g, suppressed, before, rows, n) <==> IsRefusedRow(g, suppressed, before, rows, n)
  {
    var at, next := RowByRow(g, suppressed, before, rows, n), RowByRow(g, suppressed, before, rows, n + 1);
    ImportIsExact(g, suppressed, before, rows, n);
    var e := EmailOf(g, rows[n]);
    if IsRefusedRow(g, suppressed, before, rows, n) {
      assert next.people[|at.people|] == PersonOf(g, rows[n], e.value);
    }
  }

  ghost predicate SomeRowRefused(g: Rules, suppressed: set<string>, before: seq<Person>, rows: seq<Line>, m: nat)
    requires m <= |rows|
  {
    exists n: nat :: n < m && IsRefusedRow(g, suppressed, before, rows, n)
  }

  lemma OneRowMoreRefused(g: Rules, suppressed: set<string>, before: seq<Person>, rows: seq<Line>, m: nat)
    requires m < |rows|
    ensures var now := RowByRow(g, suppressed, before, rows, m).people;
            var end := RowByRow(g, suppressed, before, rows, m + 1).people;
            BringsRefused(g, |before|, end) <==>
            BringsRefused(g, |before|, now) || IsRefusedRow(g, suppressed, before, rows, m)
  {
    var now := RowByRow(g, suppressed, before, rows, m).people;
    var end := RowByRow(g, suppressed, before, rows, m + 1).people;
    RefusedRow(g, suppressed, before, rows, m);
    RowsExtend(g, suppressed, before, rows, m, m + 1);
    if BringsRefused(g, |before|, now) {
      RefusedStays(g, |before|, now, end);
    } else {
      AfterCleanPart(g, |before|, now, end);
    }
  }

  lemma SomeRowMore(g: Rules, suppressed: set<string>, before: seq<Person>, rows: seq<Line>, m: nat)
    requires m < |rows|
    ensures SomeRowRefused(g, suppressed, before, rows, m + 1) <==>
            SomeRowRefused(g, suppressed, before, rows, m) || IsRefusedRow(g, suppressed, before, rows, m)
  {
  }

  /** The file brings a refused contact if and only if one of its rows does, which can be told before the upload. */
  lemma {:induction false} FileIsRefused(g: Rules, suppressed: set<string>, before: seq<Person>, rows: seq<Line>,
                                         m: nat)
    requires m <= |rows|
    ensures BringsRefused(g, |before|, RowByRow(g, suppressed, before, rows, m).people) <==>
            SomeRowRefused(g, suppressed, before, rows, m)
  {
    if m > 0 {
      FileIsRefused(g, suppressed, before, rows, m - 1);
      OneRowMoreRefused(g, suppressed, before, rows, m - 1);
      SomeRowMore(g, suppressed, before, rows, m - 1);
    }
  }

  // ----- One row that loses the rest -----

  /** Of two rows with new addresses the first is refused: the condition for raising holds, and nothing is committed. */
  lemma RefusedRowFailsUpload(g: Rules, suppressed: set<string>, bad: Line, good: Line)
    requires Usable(g, suppressed, bad) && g.refuses(PersonOf(g, bad, EmailOf(g, bad).value))
    ensures IsRefusedRow(g, suppressed, [], [bad, good], 0) && SomeRowRefused(g, suppressed, [], [bad, good], 2)
  {
  }

  predicate Usable(g: Rules, suppressed: set<string>, line: Line) {
    EmailOf(g, line).Some? && Fits(g, suppressed, EmailOf(g, line).value)
  }

  /** With no outage, whatever the size of the batches: the upload raises, and the good row is lost with the bad. */
  method GoodRowIsLost(d: Directory, g: Rules, bad: Line, good: Line, batchSize: nat) returns (r: Option<Counts>)
    requires d.people == [] && batchSize >= 1
    requires Usable(g, d.suppressed, bad) && Usable(g, d.suppressed, good) && EmailOf(g, bad) != EmailOf(g, good)
    requires g.refuses(PersonOf(g, bad, EmailOf(g, bad).value)) && !g.refuses(PersonOf(g, good, EmailOf(g, good).value))
    modifies d
    ensures r.None? && d.people == []
  {
    RefusedRowFailsUpload(g, d.suppressed, bad, good);
    ghost var committed, raised;
    r, committed, raised := d.ImportIntoList(g, [bad, good], batchSize, []);
  }
}
