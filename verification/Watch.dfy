/**
 `acquire` under contention: clients run WATCH, read the clock, read one key at a time, and EXEC, interleaved in any
 way. Keys expire. EXEC is refused when a watched key was written, or expired, since it was watched.
 */
module Watch {
  import opened Text
  import opened TokenBucket

  datatype Entry = Entry(cell: Cell, expires: real)

  /** What WATCH remembers of a key: how often it has been written, and whether it was live. */
  datatype Mark = Mark(writes: nat, live: bool)

  datatype Client =
    | Resting
    | Watching(buckets: seq<Bucket>, marks: seq<Mark>)
    | Reading(buckets: seq<Bucket>, marks: seq<Mark>, now: real, levels: seq<real>)

  /**
   An expired entry stays in `keys` as a record and reads as absent. `visits` and `execs` are history: the committed
   runs on a key with the clock their client read, and the times of their EXECs.
   */
  datatype State = State(keys: map<string, Entry>, writes: map<string, nat>, clients: map<int, Client>, clock: real,
                         visits: map<string, seq<Visit>>, execs: map<string, seq<real>>)

  datatype Step =
    | Pass(until: real)
    | StartWatch(c: int, buckets: seq<Bucket>)
    | ReadClock(c: int)
    | ReadKey(c: int)
    | Execute(c: int)

  predicate Live(s: State, key: string) {
    key in s.keys && s.clock < s.keys[key].expires
  }

  function Writes(s: State, key: string): nat {
    if key in s.writes then s.writes[key] else 0
  }

  function Visits(s: State, key: string): seq<Visit> {
    if key in s.visits then s.visits[key] else []
  }

  function Execs(s: State, key: string): seq<real> {
    if key in s.execs then s.execs[key] else []
  }

  function MarkOf(s: State, key: string): Mark {
    Mark(Writes(s, key), Live(s, key))
  }

  /** What HMGET returns. */
  function Read(s: State, key: string): Option<Cell> {
    if Live(s, key) then Some(s.keys[key].cell) else None
  }

  /** The store as clients see it, and as it would be if nothing ever expired. */
  function Visible(s: State): map<string, Cell> {
    map k | k in s.keys && Live(s, k) :: s.keys[k].cell
  }

  function Kept(s: State): map<string, Cell> {
    map k | k in s.keys :: s.keys[k].cell
  }

  /** How long an empty bucket takes to fill. */
  function FillTime(b: Bucket): real
    requires b.refill > 0.0
  {
    b.capacity / b.refill
  }

  /** The time to live an EXPIRE sets. */
  function Lifetime(b: Bucket): real
    requires b.refill > 0.0
  {
    FillTime(b).Floor as real + 60.0
  }

  /** Every key always goes with the same bucket, and buckets are sensible. */
  ghost predicate Sensible(rates: map<string, Bucket>) {
    forall k | k in rates ::
      rates[k].key == k && rates[k].refill > 0.0 && WellFormed(rates[k]) && rates[k].requested == 1.0
  }

  ghost predicate Fits(rates: map<string, Bucket>, bs: seq<Bucket>) {
    DistinctKeys(bs) && forall i | 0 <= i < |bs| ::
      bs[i].key in rates && rates[bs[i].key] == bs[i] && bs[i].refill > 0.0
  }

  function Conflict(s: State, x: Client): bool
    requires x.Reading? && |x.marks| == |x.buckets|
  {
    exists i | 0 <= i < |x.buckets| :: MarkOf(s, x.buckets[i].key) != x.marks[i]
  }

  ghost predicate Enabled(rates: map<string, Bucket>, s: State, step: Step) {
    match step
    case Pass(until) => s.clock <= until
    case StartWatch(c, bs) => c in s.clients && s.clients[c].Resting? && Fits(rates, bs)
    case ReadClock(c) => c in s.clients && s.clients[c].Watching?
    case ReadKey(c) => c in s.clients && s.clients[c].Reading? && |s.clients[c].levels| < |s.clients[c].buckets|
    case Execute(c) =>
      && c in s.clients && s.clients[c].Reading? && Fits(rates, s.clients[c].buckets)
      && |s.clients[c].levels| == |s.clients[c].buckets| == |s.clients[c].marks|
  }

  /** HSET and EXPIRE for each bucket in turn. */
  function Stamped(keys: map<string, Entry>, bs: seq<Bucket>, ls: seq<real>, allowed: bool, now: real,
                   clock: real): map<string, Entry>
    requires |ls| == |bs| && forall i | 0 <= i < |bs| :: bs[i].refill > 0.0
  {
    if bs == [] then keys
    else
      var n := |bs| - 1;
      Stamped(keys, bs[..n], ls[..n], allowed, now, clock)
        [bs[n].key := Entry(Cell(if allowed then ls[n] - bs[n].requested else ls[n], now), clock + Lifetime(bs[n]))]
  }

  function Touched(bs: seq<Bucket>): set<string> {
    set i | 0 <= i < |bs| :: bs[i].key
  }

  ghost function Apply(rates: map<string, Bucket>, s: State, step: Step): State
    requires Enabled(rates, s, step)
  {
    match step
    case Pass(until) => s.(clock := until)
    case StartWatch(c, bs) =>
      s.(clients := s.clients[c := Watching(bs, seq(|bs|, i requires 0 <= i < |bs| => MarkOf(s, bs[i].key)))])
    case ReadClock(c) =>
      s.(clients := s.clients[c := Reading(s.clients[c].buckets, s.clients[c].marks, s.clock, [])])
    case ReadKey(c) =>
      var x := s.clients[c];
      var b := x.buckets[|x.levels|];
      s.(clients := s.clients[c := x.(levels := x.levels + [Level(b, Read(s, b.key), x.now)])])
    case Execute(c) =>
      var x := s.clients[c];
      var t := s.(clients := s.clients[c := Resting]);
      if Conflict(s, x) then t
      else
        var allowed := Allows(x.buckets, x.levels);
        var keys := Touched(x.buckets);
        t.(keys := Stamped(s.keys, x.buckets, x.levels, allowed, x.now, s.clock),
           writes := map k | k in s.writes.Keys + keys :: Writes(s, k) + if k in keys then 1 else 0,
           visits := map k | k in s.visits.Keys + keys ::
             Visits(s, k) + if k in keys then [Visit(x.now, allowed)] else [],
           execs := map k | k in s.execs.Keys + keys :: Execs(s, k) + if k in keys then [s.clock] else [])
  }

  // ----- The invariant -----

  /** A key's record is what its committed runs made of it, and it lives long enough to be full again. */
  ghost predicate KeySound(rates: map<string, Bucket>, s: State, k: string) {
    if k !in s.keys then Visits(s, k) == []
    else
      && k in rates
      && Lawful(rates[k], Visits(s, k)) && After(rates[k], Visits(s, k)) == Some(s.keys[k].cell)
      && s.keys[k].cell.ts <= s.clock
      && rates[k].refill > 0.0 && s.keys[k].expires >= s.keys[k].cell.ts + FillTime(rates[k])
  }

  ghost predicate Untouched(s: State, x: Client, i: nat)
    requires !x.Resting? && i < |x.buckets| == |x.marks|
  {
    MarkOf(s, x.buckets[i].key) == x.marks[i]
  }

  /** As long as a watched key is untouched, what the client knows of it is still true. */
  ghost predicate Current(s: State, x: Client, i: nat)
    requires x.Reading? && i < |x.buckets| == |x.marks|
  {
    var b := x.buckets[i];
    && (b.key in s.keys ==> s.keys[b.key].cell.ts <= x.now && (!Live(s, b.key) ==> s.keys[b.key].expires <= x.now))
    && (i < |x.levels| ==> x.levels[i] == Level(b, Read(s, b.key), x.now))
  }

  /** Writes are only ever added, and an absent key comes to life by a write only. */
  ghost predicate Marked(s: State, k: string, m: Mark) {
    && m.writes <= Writes(s, k)
    && (m.writes == Writes(s, k) && !m.live ==> !Live(s, k))
  }

  ghost predicate ClientSound(rates: map<string, Bucket>, s: State, x: Client) {
    !x.Resting? ==>
      && Fits(rates, x.buckets) && |x.marks| == |x.buckets|
      && (forall i: nat | i < |x.buckets| :: Marked(s, x.buckets[i].key, x.marks[i]))
      && (x.Reading? ==>
            && |x.levels| <= |x.buckets| && x.now <= s.clock
            && forall i: nat | i < |x.buckets| && Untouched(s, x, i) :: Current(s, x, i))
  }

  ghost predicate Sound(rates: map<string, Bucket>, s: State) {
    && (forall k :: KeySound(rates, s, k))
    && (forall c | c in s.clients :: ClientSound(rates, s, s.clients[c]))
  }

  // ----- Expiry cannot be observed -----

  /** A record past its lifetime has refilled: reading it and reading nothing give the same level. */
  lemma ExpiredIsFull(b: Bucket, e: Entry, now: real)
    requires b.refill > 0.0 && e.expires <= now && e.cell.tokens >= 0.0 && b.capacity >= 0.0
    requires e.expires >= e.cell.ts + FillTime(b)
    ensures Level(b, Some(e.cell), now) == b.capacity
  {
    var idle := now - e.cell.ts;
    assert FillTime(b) * b.refill == b.capacity;
    assert idle >= FillTime(b) >= 0.0;
    ScaleLe(b.refill, FillTime(b), idle);
    assert idle * b.refill >= b.capacity;
  }

  /** For an untouched key, the level the client computed is the level of the store without expiry. */
  lemma LevelWithoutExpiry(rates: map<string, Bucket>, s: State, x: Client, i: nat)
    requires Sensible(rates) && x.Reading? && i < |x.levels| <= |x.buckets| == |x.marks|
    requires Fits(rates, x.buckets) && KeySound(rates, s, x.buckets[i].key) && Current(s, x, i)
    ensures x.levels[i] == Level(x.buckets[i], Lookup(Visible(s), x.buckets[i].key), x.now)
    ensures x.levels[i] == Level(x.buckets[i], Lookup(Kept(s), x.buckets[i].key), x.now)
    ensures x.levels[i] == Level(x.buckets[i], After(x.buckets[i], Visits(s, x.buckets[i].key)), x.now)
  {
    var b := x.buckets[i];
    if b.key in s.keys {
      TokensInRange(b, Visits(s, b.key));
      if !Live(s, b.key) { ExpiredIsFull(b, s.keys[b.key], x.now); }
    }
  }

  // ----- Linearizability -----

  lemma {:induction false} StampedCells(keys: map<string, Entry>, bs: seq<Bucket>, ls: seq<real>, allowed: bool,
                                        now: real, clock: real)
    requires |ls| == |bs| && forall i | 0 <= i < |bs| :: bs[i].refill > 0.0
    ensures var t := Stamped(keys, bs, ls, allowed, now, clock);
            (map k | k in t :: t[k].cell) == Written(map k | k in keys :: keys[k].cell, bs, ls, allowed, now)
  {
    if bs != [] {
      var n := |bs| - 1;
      StampedCells(keys, bs[..n], ls[..n], allowed, now, clock);
    }
  }

  lemma {:induction false} StampedElsewhere(keys: map<string, Entry>, bs: seq<Bucket>, ls: seq<real>, allowed: bool,
                                            now: real,
                                            clock: real, k: string)
    requires |ls| == |bs| && forall i | 0 <= i < |bs| :: bs[i].refill > 0.0 && bs[i].key != k
    ensures var t := Stamped(keys, bs, ls, allowed, now, clock);
            (k in t <==> k in keys) && (k in keys ==> t[k] == keys[k])
  {
    if bs != [] { StampedElsewhere(keys, bs[..|bs| - 1], ls[..|bs| - 1], allowed, now, clock, k); }
  }

  lemma {:induction false} StampedAt(keys: map<string, Entry>, bs: seq<Bucket>, ls: seq<real>, allowed: bool, now: real,
                                     clock: real, i: nat)
    requires |ls| == |bs| && DistinctKeys(bs) && i < |bs| && forall j | 0 <= j < |bs| :: bs[j].refill > 0.0
    ensures var t := Stamped(keys, bs, ls, allowed, now, clock);
            var left := if allowed then ls[i] - bs[i].requested else ls[i];
            bs[i].key in t && t[bs[i].key] == Entry(Cell(left, now), clock + Lifetime(bs[i]))
  {
    var n := |bs| - 1;
    if i < n { StampedAt(keys, bs[..n], ls[..n], allowed, now, clock, i); }
  }

  /** A client that may commit has read the levels of the store as it is, and as if nothing had expired. */
  lemma CommittedLevels(rates: map<string, Bucket>, s: State, c: int)
    requires Sensible(rates) && Sound(rates, s) && Enabled(rates, s, Execute(c)) && !Conflict(s, s.clients[c])
    ensures var x := s.clients[c];
            x.levels == Levels(Kept(s), x.buckets, x.now) && x.levels == Levels(Visible(s), x.buckets, x.now)
  {
    var x := s.clients[c];
    assert ClientSound(rates, s, x);
    forall i: nat | i < |x.buckets|
      ensures x.levels[i] == Level(x.buckets[i], Lookup(Visible(s), x.buckets[i].key), x.now)
      ensures x.levels[i] == Level(x.buckets[i], Lookup(Kept(s), x.buckets[i].key), x.now)
    {
      assert Untouched(s, x, i);
      LevelWithoutExpiry(rates, s, x, i);
    }
  }

  lemma CommitWrites(rates: map<string, Bucket>, s: State, c: int)
    requires Enabled(rates, s, Execute(c)) && !Conflict(s, s.clients[c])
    ensures var x := s.clients[c];
            Kept(Apply(rates, s, Execute(c))) == Written(Kept(s), x.buckets, x.levels, Allows(x.buckets, x.levels),
                                                         x.now)
  {
    var x := s.clients[c];
    StampedCells(s.keys, x.buckets, x.levels, Allows(x.buckets, x.levels), x.now, s.clock);
  }

  /**
   Linearizability: a commit has the effect and the result of one atomic take at its commit point, on the store as it
   is then, and equally on the store as it would be had nothing expired; a refused EXEC changes no key.
   */
  lemma CommitIsAtomicTake(rates: map<string, Bucket>, s: State, c: int)
    requires Sensible(rates) && Sound(rates, s) && Enabled(rates, s, Execute(c))
    ensures var x := s.clients[c];
            var t := Apply(rates, s, Execute(c));
            if Conflict(s, x) then t.keys == s.keys && t.visits == s.visits && t.writes == s.writes
            else
              && (Kept(t), Judge(x.buckets, x.levels)) == Take(Kept(s), x.buckets, x.now)
              && Judge(x.buckets, x.levels) == Take(Visible(s), x.buckets, x.now).1
  {
    if !Conflict(s, s.clients[c]) {
      CommittedLevels(rates, s, c);
      CommitWrites(rates, s, c);
    }
  }

  /** The time stamp of a key never goes back. */
  lemma StampsNeverDecrease(rates: map<string, Bucket>, s: State, step: Step, k: string)
    requires Sensible(rates) && Sound(rates, s) && Enabled(rates, s, step) && k in s.keys
    ensures k in Apply(rates, s, step).keys && s.keys[k].cell.ts <= Apply(rates, s, step).keys[k].cell.ts
  {
    if step.Execute? && !Conflict(s, s.clients[step.c]) {
      var x := s.clients[step.c];
      var allowed := Allows(x.buckets, x.levels);
      if i: nat :| i < |x.buckets| && x.buckets[i].key == k {
        assert ClientSound(rates, s, x);
        assert Untouched(s, x, i) && Current(s, x, i);
        StampedAt(s.keys, x.buckets, x.levels, allowed, x.now, s.clock, i);
      } else {
        StampedElsewhere(s.keys, x.buckets, x.levels, allowed, x.now, s.clock, k);
      }
    }
  }

  // ----- Every step keeps the invariant -----

  lemma KeyAfterCommit(rates: map<string, Bucket>, s: State, c: int, k: string)
    requires Enabled(rates, s, Execute(c)) && !Conflict(s, s.clients[c])
    ensures var t := Apply(rates, s, Execute(c));
            if k in Touched(s.clients[c].buckets) then Writes(t, k) == Writes(s, k) + 1
            else Writes(t, k) == Writes(s, k) && Visits(t, k) == Visits(s, k)
                 && (k in t.keys <==> k in s.keys) && (k in s.keys ==> t.keys[k] == s.keys[k])
  {
    var me := s.clients[c];
    if k !in Touched(me.buckets) {
      assert forall i | 0 <= i < |me.buckets| :: me.buckets[i].key in Touched(me.buckets);
      StampedElsewhere(s.keys, me.buckets, me.levels, Allows(me.buckets, me.levels), me.now, s.clock, k);
    }
  }

  lemma PaidKeyAfterCommit(rates: map<string, Bucket>, s: State, c: int, i: nat)
    requires Enabled(rates, s, Execute(c)) && !Conflict(s, s.clients[c]) && i < |s.clients[c].buckets|
    ensures var x := s.clients[c];
            var t := Apply(rates, s, Execute(c));
            var b, level, took := x.buckets[i], x.levels[i], Allows(x.buckets, x.levels);
            && Visits(t, b.key) == Visits(s, b.key) + [Visit(x.now, took)]
            && b.key in t.keys
            && t.keys[b.key] == Entry(Cell(if took then level - b.requested else level, x.now), s.clock + Lifetime(b))
            && t.clock == s.clock
  {
    var x := s.clients[c];
    StampedAt(s.keys, x.buckets, x.levels, Allows(x.buckets, x.levels), x.now, s.clock, i);
    assert x.buckets[i].key in Touched(x.buckets);
  }

  lemma CommitKeepsKey(rates: map<string, Bucket>, s: State, c: int, k: string)
    requires Sensible(rates) && Sound(rates, s) && Enabled(rates, s, Execute(c)) && !Conflict(s, s.clients[c])
    ensures KeySound(rates, Apply(rates, s, Execute(c)), k)
  {
    var x := s.clients[c];
    assert KeySound(rates, s, k) && ClientSound(rates, s, x);
    KeyAfterCommit(rates, s, c, k);
    if k in Touched(x.buckets) {
      var i: nat :| i < |x.buckets| && x.buckets[i].key == k;
      CommitKeepsPaidKey(rates, s, c, i);
    }
  }

  lemma CommitKeepsPaidKey(rates: map<string, Bucket>, s: State, c: int, i: nat)
    requires Sensible(rates) && Enabled(rates, s, Execute(c)) && !Conflict(s, s.clients[c])
    requires ClientSound(rates, s, s.clients[c]) && i < |s.clients[c].buckets|
    requires KeySound(rates, s, s.clients[c].buckets[i].key)
    ensures KeySound(rates, Apply(rates, s, Execute(c)), s.clients[c].buckets[i].key)
  {
    var x := s.clients[c];
    PaidKeyAfterCommit(rates, s, c, i);
    KnownLevel(rates, s, x, i);
    VisitIsLawful(x.buckets[i], Visits(s, x.buckets[i].key), x.now, Allows(x.buckets, x.levels), x.levels[i]);
  }

  lemma KnownLevel(rates: map<string, Bucket>, s: State, x: Client, i: nat)
    requires Sensible(rates) && x.Reading? && i < |x.levels| == |x.buckets| == |x.marks|
    requires ClientSound(rates, s, x) && KeySound(rates, s, x.buckets[i].key) && !Conflict(s, x)
    ensures x.levels[i] == Level(x.buckets[i], After(x.buckets[i], Visits(s, x.buckets[i].key)), x.now)
    ensures After(x.buckets[i], Visits(s, x.buckets[i].key)).Some? ==>
              After(x.buckets[i], Visits(s, x.buckets[i].key)).value.ts <= x.now
    ensures Lawful(x.buckets[i], Visits(s, x.buckets[i].key)) && x.now <= s.clock
  {
    assert Untouched(s, x, i) && Current(s, x, i);
    LevelWithoutExpiry(rates, s, x, i);
  }

  lemma VisitIsLawful(b: Bucket, visits: seq<Visit>, now: real, took: bool, level: real)
    requires Lawful(b, visits) && level == Level(b, After(b, visits), now) && (took ==> level >= b.requested)
    requires After(b, visits).Some? ==> After(b, visits).value.ts <= now
    ensures Lawful(b, visits + [Visit(now, took)])
    ensures After(b, visits + [Visit(now, took)]) == Some(Cell(if took then level - b.requested else level, now))
  {
    var all := visits + [Visit(now, took)];
    assert all[..|all| - 1] == visits && all[|all| - 1] == Visit(now, took);
  }

  /** Another client's commit leaves a client's knowledge of a key true, or visibly touches the key. */
  lemma CommitKeepsClient(rates: map<string, Bucket>, s: State, c: int, x: Client)
    requires Enabled(rates, s, Execute(c)) && !Conflict(s, s.clients[c]) && ClientSound(rates, s, x)
    ensures ClientSound(rates, Apply(rates, s, Execute(c)), x)
  {
    var t := Apply(rates, s, Execute(c));
    if !x.Resting? {
      forall i: nat | i < |x.buckets|
        ensures Marked(t, x.buckets[i].key, x.marks[i])
        ensures x.Reading? && Untouched(t, x, i) ==> Current(t, x, i)
      {
        assert Marked(s, x.buckets[i].key, x.marks[i]);
        KeyAfterCommit(rates, s, c, x.buckets[i].key);
        if x.Reading? && Untouched(t, x, i) {
          assert Untouched(s, x, i) && Current(s, x, i);
        }
      }
    }
  }

  /** Time passing can only make a key expire, which shows in its mark. */
  lemma PassKeepsClient(rates: map<string, Bucket>, s: State, until: real, x: Client)
    requires ClientSound(rates, s, x) && s.clock <= until
    ensures ClientSound(rates, s.(clock := until), x)
  {
    var t := s.(clock := until);
    if !x.Resting? {
      forall i: nat | i < |x.buckets|
        ensures Marked(t, x.buckets[i].key, x.marks[i])
        ensures x.Reading? && Untouched(t, x, i) ==> Current(t, x, i)
      {
        assert Marked(s, x.buckets[i].key, x.marks[i]);
        if x.Reading? && Untouched(t, x, i) {
          assert Untouched(s, x, i) && Current(s, x, i);
        }
      }
    }
  }

  lemma NewWatcher(rates: map<string, Bucket>, s: State, c: int, bs: seq<Bucket>)
    requires Enabled(rates, s, StartWatch(c, bs))
    ensures ClientSound(rates, s, Apply(rates, s, StartWatch(c, bs)).clients[c])
  {
  }

  lemma NewReader(rates: map<string, Bucket>, s: State, c: int)
    requires Sound(rates, s) && Enabled(rates, s, ReadClock(c))
    ensures ClientSound(rates, s, Apply(rates, s, ReadClock(c)).clients[c])
  {
    var x, y := s.clients[c], Apply(rates, s, ReadClock(c)).clients[c];
    assert ClientSound(rates, s, x);
    forall i: nat | i < |y.buckets| ensures Marked(s, y.buckets[i].key, y.marks[i]) && Current(s, y, i) {
      assert KeySound(rates, s, y.buckets[i].key);
      assert Marked(s, x.buckets[i].key, x.marks[i]);
    }
  }

  lemma OneMoreLevel(rates: map<string, Bucket>, s: State, c: int)
    requires Sound(rates, s) && Enabled(rates, s, ReadKey(c))
    ensures ClientSound(rates, s, Apply(rates, s, ReadKey(c)).clients[c])
  {
    var x, y := s.clients[c], Apply(rates, s, ReadKey(c)).clients[c];
    assert ClientSound(rates, s, x);
    forall i: nat | i < |y.buckets| ensures Marked(s, y.buckets[i].key, y.marks[i]) {
      assert Marked(s, x.buckets[i].key, x.marks[i]);
    }
    forall i: nat | i < |y.buckets| && Untouched(s, y, i) ensures Current(s, y, i) {
      assert Untouched(s, x, i) && Current(s, x, i);
    }
  }

  lemma SameKeysSameClient(rates: map<string, Bucket>, s: State, t: State, x: Client)
    requires t == s.(clients := t.clients) && ClientSound(rates, s, x)
    ensures ClientSound(rates, t, x)
  {
    if !x.Resting? {
      forall i: nat | i < |x.buckets|
        ensures Marked(t, x.buckets[i].key, x.marks[i])
        ensures x.Reading? && Untouched(t, x, i) ==> Current(t, x, i)
      {
        assert Marked(s, x.buckets[i].key, x.marks[i]);
        if x.Reading? && Untouched(t, x, i) { assert Untouched(s, x, i) && Current(s, x, i); }
      }
    }
  }

  /** A step that only changes what one client knows. */
  lemma OneClientMoved(rates: map<string, Bucket>, s: State, t: State, c: int)
    requires Sound(rates, s) && c in s.clients && c in t.clients
    requires t == s.(clients := s.clients[c := t.clients[c]]) && ClientSound(rates, s, t.clients[c])
    ensures Sound(rates, t)
  {
    forall k ensures KeySound(rates, t, k) { assert KeySound(rates, s, k); }
    forall d | d in t.clients ensures ClientSound(rates, t, t.clients[d]) {
      SameKeysSameClient(rates, s, t, t.clients[d]);
    }
  }

  lemma CommitKeepsSound(rates: map<string, Bucket>, s: State, c: int)
    requires Sensible(rates) && Sound(rates, s) && Enabled(rates, s, Execute(c)) && !Conflict(s, s.clients[c])
    ensures Sound(rates, Apply(rates, s, Execute(c)))
  {
    var t := Apply(rates, s, Execute(c));
    forall k ensures KeySound(rates, t, k) { CommitKeepsKey(rates, s, c, k); }
    forall d | d in t.clients ensures ClientSound(rates, t, t.clients[d]) {
      if d != c { CommitKeepsClient(rates, s, c, s.clients[d]); }
    }
  }

  lemma PassKeepsSound(rates: map<string, Bucket>, s: State, until: real)
    requires Sound(rates, s) && s.clock <= until
    ensures Sound(rates, s.(clock := until))
  {
    var t := s.(clock := until);
    forall k ensures KeySound(rates, t, k) { assert KeySound(rates, s, k); }
    forall c | c in t.clients ensures ClientSound(rates, t, t.clients[c]) {
      PassKeepsClient(rates, s, until, s.clients[c]);
    }
  }

  lemma StepKeepsSound(rates: map<string, Bucket>, s: State, step: Step)
    requires Sensible(rates) && Sound(rates, s) && Enabled(rates, s, step)
    ensures Sound(rates, Apply(rates, s, step))
  {
    match step
    case Pass(until) => PassKeepsSound(rates, s, until);
    case StartWatch(c, bs) => NewWatcher(rates, s, c, bs); OneClientMoved(rates, s, Apply(rates, s, step), c);
    case ReadClock(c) => NewReader(rates, s, c); OneClientMoved(rates, s, Apply(rates, s, step), c);
    case ReadKey(c) => OneMoreLevel(rates, s, c); OneClientMoved(rates, s, Apply(rates, s, step), c);
    case Execute(c) =>
      if Conflict(s, s.clients[c]) {
        OneClientMoved(rates, s, Apply(rates, s, step), c);
      } else {
        CommitKeepsSound(rates, s, c);
      }
  }

  // ----- Runs -----

  ghost predicate Start(s: State) {
    && s.keys == map[] && s.visits == map[] && s.execs == map[] && forall c | c in s.clients :: s.clients[c].Resting?
  }

  ghost predicate Reaches(rates: map<string, Bucket>, s: State, steps: seq<Step>, t: State)
    decreases |steps|
  {
    if steps == [] then s == t
    else Enabled(rates, s, steps[0]) && Reaches(rates, Apply(rates, s, steps[0]), steps[1..], t)
  }

  lemma {:induction false} RunKeepsSound(rates: map<string, Bucket>, s: State, steps: seq<Step>, t: State)
    requires Sensible(rates) && Sound(rates, s) && Reaches(rates, s, steps, t)
    ensures Sound(rates, t)
    decreases |steps|
  {
    if steps != [] {
      StepKeepsSound(rates, s, steps[0]);
      RunKeepsSound(rates, Apply(rates, s, steps[0]), steps[1..], t);
    }
  }

  /**
   The rate bound over whole runs of the contended protocol, expiry included: the sends a bucket admits in a window
   number at most its capacity plus what the window refills. A send counts at the time its client read the clock.
   */
  lemma RateBoundOverRuns(rates: map<string, Bucket>, s: State, steps: seq<Step>, t: State, k: string, t1: real,
                          t2: real)
    requires Sensible(rates) && Start(s) && Reaches(rates, s, steps, t) && k in rates && t1 <= t2
    ensures Admitted(Visits(t, k), t1, t2) as real <= Allowance(rates[k], t2 - t1)
  {
    RunKeepsSound(rates, s, steps, t);
    assert KeySound(rates, t, k);
    RateBound(rates[k], Visits(t, k), t1, t2);
  }

  /** In every reachable state a bucket's tokens lie between empty and full. */
  lemma TokensStayInRange(rates: map<string, Bucket>, s: State, steps: seq<Step>, t: State, k: string)
    requires Sensible(rates) && Start(s) && Reaches(rates, s, steps, t) && k in t.keys
    ensures k in rates && 0.0 <= t.keys[k].cell.tokens <= rates[k].capacity
  {
    RunKeepsSound(rates, s, steps, t);
    assert KeySound(rates, t, k);
    TokensInRange(rates[k], Visits(t, k));
  }

  // ----- The same bound by the time of EXEC -----

  /** A commit reads the clock after the previous EXEC on the key, and its own EXEC comes after that. */
  ghost predicate InTurn(visits: seq<Visit>, execs: seq<real>, clock: real) {
    && |visits| == |execs|
    && (forall i | 0 <= i < |execs| :: visits[i].at <= execs[i] <= clock)
    && (forall i | 0 < i < |execs| :: execs[i - 1] <= visits[i].at)
  }

  /** A client that has read the clock has read it after every EXEC on a key that is unwritten since its WATCH. */
  ghost predicate ReadAfter(s: State, x: Client) {
    x.Reading? && |x.marks| == |x.buckets| ==>
      forall i: nat | i < |x.buckets| && Writes(s, x.buckets[i].key) == x.marks[i].writes
                      && Execs(s, x.buckets[i].key) != [] ::
        var execs := Execs(s, x.buckets[i].key); execs[|execs| - 1] <= x.now
  }

  ghost predicate Ordered(s: State) {
    && (forall k :: InTurn(Visits(s, k), Execs(s, k), s.clock))
    && (forall c | c in s.clients :: ReadAfter(s, s.clients[c]))
  }

  lemma InTurnAppend(visits: seq<Visit>, execs: seq<real>, clock: real, v: Visit)
    requires InTurn(visits, execs, clock) && v.at <= clock && (execs != [] ==> execs[|execs| - 1] <= v.at)
    ensures InTurn(visits + [v], execs + [clock], clock)
  {
  }

  lemma ExecsAfterCommit(rates: map<string, Bucket>, s: State, c: int, k: string)
    requires Enabled(rates, s, Execute(c)) && !Conflict(s, s.clients[c])
    ensures var x, t := s.clients[c], Apply(rates, s, Execute(c));
            if k in Touched(x.buckets)
            then Execs(t, k) == Execs(s, k) + [s.clock] && Writes(t, k) == Writes(s, k) + 1
                 && Visits(t, k) == Visits(s, k) + [Visit(x.now, Allows(x.buckets, x.levels))]
            else Execs(t, k) == Execs(s, k) && Writes(t, k) == Writes(s, k) && Visits(t, k) == Visits(s, k)
  {
  }

  lemma ReadInTurn(rates: map<string, Bucket>, s: State, x: Client, i: nat)
    requires x.Reading? && ClientSound(rates, s, x) && ReadAfter(s, x) && i < |x.buckets| && Untouched(s, x, i)
    ensures x.now <= s.clock
    ensures Execs(s, x.buckets[i].key) != [] ==> Execs(s, x.buckets[i].key)[|Execs(s, x.buckets[i].key)| - 1] <= x.now
  {
  }

  lemma CommitKeepsTurn(rates: map<string, Bucket>, s: State, c: int, k: string)
    requires c in s.clients && ClientSound(rates, s, s.clients[c]) && ReadAfter(s, s.clients[c])
    requires InTurn(Visits(s, k), Execs(s, k), s.clock)
    requires Enabled(rates, s, Execute(c)) && !Conflict(s, s.clients[c])
    ensures var t := Apply(rates, s, Execute(c)); InTurn(Visits(t, k), Execs(t, k), s.clock)
  {
    var x := s.clients[c];
    ExecsAfterCommit(rates, s, c, k);
    if k in Touched(x.buckets) {
      var i: nat :| i < |x.buckets| && x.buckets[i].key == k;
      ReadInTurn(rates, s, x, i);
      InTurnAppend(Visits(s, k), Execs(s, k), s.clock, Visit(x.now, Allows(x.buckets, x.levels)));
    }
  }

  lemma CommitKeepsReader(rates: map<string, Bucket>, s: State, c: int, x: Client)
    requires Enabled(rates, s, Execute(c)) && !Conflict(s, s.clients[c]) && ClientSound(rates, s, x) && ReadAfter(s, x)
    ensures ReadAfter(Apply(rates, s, Execute(c)), x)
  {
    var t := Apply(rates, s, Execute(c));
    if x.Reading? {
      forall i: nat | i < |x.buckets| && Writes(t, x.buckets[i].key) == x.marks[i].writes
                      && Execs(t, x.buckets[i].key) != []
        ensures var execs := Execs(t, x.buckets[i].key); execs[|execs| - 1] <= x.now
      {
        assert Marked(s, x.buckets[i].key, x.marks[i]);
        ExecsAfterCommit(rates, s, c, x.buckets[i].key);
      }
    }
  }

  lemma CommitKeepsOrder(rates: map<string, Bucket>, s: State, c: int)
    requires Sound(rates, s) && Ordered(s) && Enabled(rates, s, Execute(c)) && !Conflict(s, s.clients[c])
    ensures Ordered(Apply(rates, s, Execute(c)))
  {
    var t := Apply(rates, s, Execute(c));
    forall k ensures InTurn(Visits(t, k), Execs(t, k), t.clock) { CommitKeepsTurn(rates, s, c, k); }
    forall d | d in t.clients ensures ReadAfter(t, t.clients[d]) {
      if d != c { CommitKeepsReader(rates, s, c, s.clients[d]); }
    }
  }

  /** `y` is `x`, possibly with one more level, or has just read the clock. */
  ghost predicate Resumes(s: State, x: Client, y: Client) {
    y.Reading? ==> y.now == s.clock || (x.Reading? && y.now == x.now && y.marks == x.marks && y.buckets == x.buckets)
  }

  lemma ReaderKept(s: State, t: State, x: Client, y: Client)
    requires t.execs == s.execs && t.writes == s.writes && ReadAfter(s, x) && Resumes(s, x, y)
    requires forall k :: InTurn(Visits(s, k), Execs(s, k), s.clock)
    ensures ReadAfter(t, y)
  {
    if y.Reading? && |y.marks| == |y.buckets| {
      forall i: nat | i < |y.buckets| && Writes(t, y.buckets[i].key) == y.marks[i].writes
                      && Execs(t, y.buckets[i].key) != []
        ensures var execs := Execs(t, y.buckets[i].key); execs[|execs| - 1] <= y.now
      {
        assert InTurn(Visits(s, y.buckets[i].key), Execs(s, y.buckets[i].key), s.clock);
      }
    }
  }

  /** Steps that commit nothing. */
  lemma QuietKeepsOrder(s: State, t: State)
    requires Ordered(s) && t.execs == s.execs && t.writes == s.writes && t.visits == s.visits && s.clock <= t.clock
    requires t.clients.Keys == s.clients.Keys && forall c | c in s.clients :: Resumes(s, s.clients[c], t.clients[c])
    ensures Ordered(t)
  {
    forall k ensures InTurn(Visits(t, k), Execs(t, k), t.clock) { assert InTurn(Visits(s, k), Execs(s, k), s.clock); }
    forall c | c in t.clients ensures ReadAfter(t, t.clients[c]) { ReaderKept(s, t, s.clients[c], t.clients[c]); }
  }

  lemma StepKeepsOrder(rates: map<string, Bucket>, s: State, step: Step)
    requires Sound(rates, s) && Ordered(s) && Enabled(rates, s, step)
    ensures Ordered(Apply(rates, s, step))
  {
    if step.Execute? && !Conflict(s, s.clients[step.c]) {
      CommitKeepsOrder(rates, s, step.c);
    } else {
      QuietKeepsOrder(s, Apply(rates, s, step));
    }
  }

  lemma {:induction false} RunKeepsOrder(rates: map<string, Bucket>, s: State, steps: seq<Step>, t: State)
    requires Sensible(rates) && Sound(rates, s) && Ordered(s) && Reaches(rates, s, steps, t)
    ensures Ordered(t)
    decreases |steps|
  {
    if steps != [] {
      StepKeepsSound(rates, s, steps[0]);
      StepKeepsOrder(rates, s, steps[0]);
      RunKeepsOrder(rates, Apply(rates, s, steps[0]), steps[1..], t);
    }
  }

  /** The sends admitted by EXECs in a window. */
  function AdmittedByExec(visits: seq<Visit>, execs: seq<real>, t1: real, t2: real): nat
    requires |visits| == |execs|
  {
    if visits == [] then 0
    else
      var n := |visits| - 1;
      AdmittedByExec(visits[..n], execs[..n], t1, t2) + if visits[n].took && t1 <= execs[n] <= t2 then 1 else 0
  }

  lemma {:induction false} NoneExecutedBefore(visits: seq<Visit>, execs: seq<real>, clock: real, t1: real, t2: real)
    requires InTurn(visits, execs, clock) && (execs != [] ==> execs[|execs| - 1] < t1)
    ensures AdmittedByExec(visits, execs, t1, t2) == 0
  {
    if visits != [] {
      var n := |visits| - 1;
      NoneExecutedBefore(visits[..n], execs[..n], clock, t1, t2);
    }
  }

  /** All but the first EXEC of a window belong to clocks read in the window. */
  lemma {:induction false} OneMoreByExec(visits: seq<Visit>, execs: seq<real>, clock: real, t1: real, t2: real)
    requires InTurn(visits, execs, clock)
    ensures AdmittedByExec(visits, execs, t1, t2) <= Admitted(visits, t1, t2) + 1
  {
    if visits != [] {
      var n := |visits| - 1;
      OneMoreByExec(visits[..n], execs[..n], clock, t1, t2);
      if visits[n].took && t1 <= execs[n] <= t2 && !(t1 <= visits[n].at <= t2) {
        NoneExecutedBefore(visits[..n], execs[..n], clock, t1, t2);
      }
    }
  }

  /**
   Counted at the EXEC that admits it, one more send fits into a window: its client may have read the clock before the
   window began. No second one can, since every later client watches, and reads the clock, after that EXEC.
   */
  lemma {:induction false} RateBoundByExec(rates: map<string, Bucket>, s: State, steps: seq<Step>, t: State, k: string,
                                           t1: real, t2: real)
    requires Sensible(rates) && Start(s) && Reaches(rates, s, steps, t) && k in rates && t1 <= t2
    ensures |Visits(t, k)| == |Execs(t, k)|
    ensures AdmittedByExec(Visits(t, k), Execs(t, k), t1, t2) as real <= Allowance(rates[k], t2 - t1) + 1.0
  {
    RunKeepsOrder(rates, s, steps, t);
    RateBoundOverRuns(rates, s, steps, t, k, t1, t2);
    assert InTurn(Visits(t, k), Execs(t, k), t.clock);
    OneMoreByExec(Visits(t, k), Execs(t, k), t.clock, t1, t2);
  }

  // ----- The one more send -----

  lemma StepFirst(rates: map<string, Bucket>, s: State, step: Step, rest: seq<Step>, t: State)
    requires Enabled(rates, s, step) && Reaches(rates, Apply(rates, s, step), rest, t)
    ensures Reaches(rates, s, [step] + rest, t)
  {
    assert ([step] + rest)[1..] == rest;
  }

  /** One client watches, reads the clock and the key of one bucket, and is ready to EXEC. */
  lemma GetReady(rates: map<string, Bucket>, s: State, c: int, b: Bucket) returns (steps: seq<Step>, x: Client)
    requires c in s.clients && s.clients[c].Resting? && Fits(rates, [b])
    ensures x == Reading([b], [MarkOf(s, b.key)], s.clock, [Level(b, Read(s, b.key), s.clock)])
    ensures Reaches(rates, s, steps, s.(clients := s.clients[c := x]))
  {
    x := Reading([b], [MarkOf(s, b.key)], s.clock, [Level(b, Read(s, b.key), s.clock)]);
    var s1 := s.(clients := s.clients[c := Watching([b], [MarkOf(s, b.key)])]);
    var s2 := s.(clients := s.clients[c := Reading([b], [MarkOf(s, b.key)], s.clock, [])]);
    var s3 := s.(clients := s.clients[c := x]);
    var marks := seq(|[b]|, i requires 0 <= i < |[b]| => MarkOf(s, [b][i].key));
    assert marks == [MarkOf(s, b.key)];
    assert Apply(rates, s, StartWatch(c, [b])) == s1;
    assert Apply(rates, s1, ReadClock(c)) == s2;
    assert Read(s2, b.key) == Read(s, b.key);
    assert [] + [Level(b, Read(s, b.key), s.clock)] == [Level(b, Read(s, b.key), s.clock)];
    assert Apply(rates, s2, ReadKey(c)) == s3;
    StepFirst(rates, s2, ReadKey(c), [], s3);
    StepFirst(rates, s1, ReadClock(c), [ReadKey(c)], s3);
    StepFirst(rates, s, StartWatch(c, [b]), [ReadClock(c)] + [ReadKey(c)], s3);
    steps := [StartWatch(c, [b])] + ([ReadClock(c)] + [ReadKey(c)]);
  }

  lemma {:induction false} RunsJoin(rates: map<string, Bucket>, s: State, first: seq<Step>, t: State,
                                    second: seq<Step>, u: State)
    requires Reaches(rates, s, first, t) && Reaches(rates, t, second, u)
    ensures Reaches(rates, s, first + second, u)
    decreases |first|
  {
    if first == [] {
      assert first + second == second;
    } else {
      RunsJoin(rates, Apply(rates, s, first[0]), first[1..], t, second, u);
      assert (first + second)[1..] == first[1..] + second;
    }
  }

  lemma TakeOne(rates: map<string, Bucket>, s: State, c: int, b: Bucket)
    requires c in s.clients && s.clients[c].Reading? && s.clients[c].buckets == [b] && Fits(rates, [b])
    requires s.clients[c].marks == [MarkOf(s, b.key)] && |s.clients[c].levels| == 1
    requires s.clients[c].levels[0] >= b.requested
    ensures Enabled(rates, s, Execute(c)) && !Conflict(s, s.clients[c])
    ensures var x, t := s.clients[c], Apply(rates, s, Execute(c));
            && t.clock == s.clock && t.clients == s.clients[c := Resting]
            && b.key in t.keys && t.keys[b.key] == Entry(Cell(x.levels[0] - b.requested, x.now), s.clock + Lifetime(b))
            && Visits(t, b.key) == Visits(s, b.key) + [Visit(x.now, true)]
            && Execs(t, b.key) == Execs(s, b.key) + [s.clock]
  {
    var x := s.clients[c];
    assert Allows(x.buckets, x.levels);
    PaidKeyAfterCommit(rates, s, c, 0);
    ExecsAfterCommit(rates, s, c, b.key);
    assert x.buckets[0].key in Touched(x.buckets);
  }

  /** The clock runs on between a client's last read and its EXEC. */
  lemma LateTake(rates: map<string, Bucket>, s: State, c: int, b: Bucket, until: real)
    returns (steps: seq<Step>, t: State)
    requires c in s.clients && s.clients[c].Resting? && Fits(rates, [b]) && b.key !in s.keys
    requires b.capacity >= b.requested
    requires s.clock <= until && b.refill > 0.0
    ensures Reaches(rates, s, steps, t) && t.clock == until && t.clients == s.clients
    ensures b.key in t.keys && t.keys[b.key] == Entry(Cell(b.capacity - b.requested, s.clock), until + Lifetime(b))
    ensures Visits(t, b.key) == Visits(s, b.key) + [Visit(s.clock, true)]
    ensures Execs(t, b.key) == Execs(s, b.key) + [until]
  {
    var x;
    steps, x := GetReady(rates, s, c, b);
    var ready := s.(clients := s.clients[c := x]);
    var late := ready.(clock := until);
    assert MarkOf(late, b.key) == MarkOf(s, b.key);
    TakeOne(rates, late, c, b);
    t := Apply(rates, late, Execute(c));
    ThenExecute(rates, ready, until, c);
    RunsJoin(rates, s, steps, ready, [Pass(until), Execute(c)], t);
    steps := steps + [Pass(until), Execute(c)];
    assert s.clients[c := Resting] == s.clients;
  }

  lemma ThenExecute(rates: map<string, Bucket>, s: State, until: real, c: int)
    requires s.clock <= until && Enabled(rates, s.(clock := until), Execute(c))
    ensures Reaches(rates, s, [Pass(until), Execute(c)], Apply(rates, s.(clock := until), Execute(c)))
  {
    var late := s.(clock := until);
    StepFirst(rates, late, Execute(c), [], Apply(rates, late, Execute(c)));
    StepFirst(rates, s, Pass(until), [Execute(c)], Apply(rates, late, Execute(c)));
    assert [Pass(until)] + [Execute(c)] == [Pass(until), Execute(c)];
  }

  lemma PromptTake(rates: map<string, Bucket>, s: State, c: int, b: Bucket) returns (steps: seq<Step>, t: State)
    requires c in s.clients && s.clients[c].Resting? && Fits(rates, [b])
    requires Level(b, Read(s, b.key), s.clock) >= b.requested
    ensures Reaches(rates, s, steps, t)
    ensures Visits(t, b.key) == Visits(s, b.key) + [Visit(s.clock, true)]
    ensures Execs(t, b.key) == Execs(s, b.key) + [s.clock]
  {
    var x;
    steps, x := GetReady(rates, s, c, b);
    var ready := s.(clients := s.clients[c := x]);
    assert MarkOf(ready, b.key) == MarkOf(s, b.key);
    TakeOne(rates, ready, c, b);
    t := Apply(rates, ready, Execute(c));
    StepFirst(rates, ready, Execute(c), [], t);
    RunsJoin(rates, s, steps, ready, [Execute(c)], t);
    steps := steps + [Execute(c)];
  }

  /**
   One send a minute: a client that read the clock at zero executes after a minute, when the bucket is full again for
   the next. Two sends are admitted at that instant, one more than the capacity.
   */
  lemma OneMoreByExecHappens() returns (rates: map<string, Bucket>, s: State, steps: seq<Step>, t: State)
    ensures Sensible(rates) && Start(s) && Reaches(rates, s, steps, t) && "rl:global" in rates
    ensures |Visits(t, "rl:global")| == |Execs(t, "rl:global")|
    ensures AdmittedByExec(Visits(t, "rl:global"), Execs(t, "rl:global"), 60.0, 60.0) as real
            == Allowance(rates["rl:global"], 60.0 - 60.0) + 1.0
  {
    var k := "rl:global";
    var b := Bucket(k, 1.0, 1.0 / 60.0, 1.0);
    rates := map[k := b];
    s := State(map[], map[], map[0 := Resting, 1 := Resting], 0.0, map[], map[]);
    var one, s1, two;
    one, s1 := LateTake(rates, s, 0, b, 60.0);
    assert Level(b, Read(s1, k), 60.0) == 1.0;
    two, t := PromptTake(rates, s1, 1, b);
    RunsJoin(rates, s, one, s1, two, t);
    steps := one + two;
    CountTwo(Visits(t, k), Execs(t, k), 60.0);
  }

  lemma CountTwo(visits: seq<Visit>, execs: seq<real>, at: real)
    requires |visits| == |execs| == 2 && visits[0].took && visits[1].took && execs[0] == execs[1] == at
    ensures AdmittedByExec(visits, execs, at, at) == 2
  {
    assert visits[..1][..0] == [] && AdmittedByExec(visits[..1], execs[..1], at, at) == 1;
  }
}
