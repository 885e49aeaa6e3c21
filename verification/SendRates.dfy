/** How many messages a minute the two send limits let out, in the numbers of the settings. */
module SendRates {
  import opened Text
  import opened TokenBucket
  import opened Watch

  /** The settings: the override of the global rate, its default, and the rate per recipient domain. */
  datatype Settings = Settings(override: Option<int>, globalRate: int, domainRate: int)

  function Buckets(g: Settings, domain: string): seq<Bucket> {
    SendBuckets(domain, g.override, g.globalRate, g.domainRate)
  }

  /** Messages a minute over all domains: the override if it is given and not zero, else the default; at least one. */
  function GlobalPerMinute(g: Settings): int {
    var n := if g.override.Some? && g.override.value != 0 then g.override.value else g.globalRate;
    if n >= 1 then n else 1
  }

  function DomainPerMinute(g: Settings): int {
    if g.domainRate >= 1 then g.domainRate else 1
  }

  /** What a limit of `n` a minute lets out in `d` seconds: a minute's worth at once, and as it refills. */
  function LetOut(n: int, d: real): real {
    n as real + n as real * d / 60.0
  }

  // ----- Runs in which every message asks for its two buckets -----

  ghost predicate AsksForSends(g: Settings, steps: seq<Step>) {
    forall i | 0 <= i < |steps| && steps[i].StartWatch? :: exists domain :: steps[i].buckets == Buckets(g, domain)
  }

  /** The client's EXEC lets a message out at a time of the window; `domain` narrows it to one domain. */
  ghost predicate LetsOut(g: Settings, s: State, step: Step, domain: Option<string>, t1: real, t2: real) {
    && step.Execute? && step.c in s.clients && s.clients[step.c].Reading?
    && var x := s.clients[step.c];
       && |x.marks| == |x.buckets| == |x.levels| && !Conflict(s, x) && Allows(x.buckets, x.levels) && t1 <= x.now <= t2
       && (domain.Some? ==> x.buckets == Buckets(g, domain.value))
  }

  /** The messages let out in the window, counted by the clock their client read. */
  ghost function LetOutIn(g: Settings, rates: map<string, Bucket>, s: State, steps: seq<Step>, t: State,
                          domain: Option<string>, t1: real, t2: real): nat
    requires Reaches(rates, s, steps, t)
    decreases |steps|
  {
    if steps == [] then 0
    else (if LetsOut(g, s, steps[0], domain, t1, t2) then 1 else 0)
         + LetOutIn(g, rates, Apply(rates, s, steps[0]), steps[1..], t, domain, t1, t2)
  }

  // ----- The keys -----

  const GLOBAL_KEY := "rl:global"

  function DomainKey(domain: string): string {
    "rl:dom:" + domain
  }

  /** The key a message is counted on: that of all domains, or that of one. */
  function KeyOf(domain: Option<string>): string {
    if domain.Some? then DomainKey(domain.value) else GLOBAL_KEY
  }

  lemma KeysOfSends(g: Settings, domain: string)
    ensures var bs := Buckets(g, domain);
            |bs| == 2 && bs[0].key == GLOBAL_KEY && bs[1].key == DomainKey(domain)
            && Touched(bs) == {GLOBAL_KEY, DomainKey(domain)} && GLOBAL_KEY != DomainKey(domain)
  {
    var bs := Buckets(g, domain);
    assert bs[0].key in Touched(bs) && bs[1].key in Touched(bs);
    assert GLOBAL_KEY[3] != DomainKey(domain)[3];
  }

  lemma DomainKeysDiffer(a: string, b: string)
    ensures DomainKey(a) == DomainKey(b) <==> a == b
  {
    assert DomainKey(a)[7..] == a && DomainKey(b)[7..] == b;
  }

  /** A message counts on its domain's key and on no other domain's. */
  lemma CountsOn(g: Settings, bs: seq<Bucket>, own: string, domain: Option<string>)
    requires bs == Buckets(g, own)
    ensures KeyOf(domain) in Touched(bs) <==> (domain.Some? ==> bs == Buckets(g, domain.value))
  {
    KeysOfSends(g, own);
    if domain.Some? {
      KeysOfSends(g, domain.value);
      DomainKeysDiffer(own, domain.value);
      assert GLOBAL_KEY != DomainKey(domain.value);
    }
  }

  // ----- Messages and visits -----

  /** Every client at work asks for the two buckets of a message. */
  ghost predicate AllSending(g: Settings, s: State) {
    forall c | c in s.clients && !s.clients[c].Resting? :: exists own :: s.clients[c].buckets == Buckets(g, own)
  }

  /** A client keeps the buckets it asks for until it is done. */
  lemma BucketsStay(rates: map<string, Bucket>, s: State, step: Step, c: int)
    requires Enabled(rates, s, step) && c in Apply(rates, s, step).clients
    ensures var x := Apply(rates, s, step).clients[c];
            || x.Resting? || (step.StartWatch? && x.buckets == step.buckets)
            || (c in s.clients && !s.clients[c].Resting? && x.buckets == s.clients[c].buckets)
  {
  }

  lemma StepKeepsSending(g: Settings, rates: map<string, Bucket>, s: State, step: Step)
    requires AllSending(g, s) && Enabled(rates, s, step)
    requires step.StartWatch? ==> exists own :: step.buckets == Buckets(g, own)
    ensures AllSending(g, Apply(rates, s, step))
  {
    var t := Apply(rates, s, step);
    forall c | c in t.clients && !t.clients[c].Resting? ensures exists own :: t.clients[c].buckets == Buckets(g, own) {
      BucketsStay(rates, s, step, c);
    }
  }

  lemma AdmittedOneMore(visits: seq<Visit>, v: Visit, t1: real, t2: real)
    ensures Admitted(visits + [v], t1, t2) == Admitted(visits, t1, t2) + if v.took && t1 <= v.at <= t2 then 1 else 0
  {
    assert (visits + [v])[..|visits|] == visits;
  }

  lemma QuietStep(rates: map<string, Bucket>, s: State, step: Step, k: string)
    requires Enabled(rates, s, step) && !(step.Execute? && !Conflict(s, s.clients[step.c]))
    ensures Visits(Apply(rates, s, step), k) == Visits(s, k)
  {
  }

  /** A message let out is one more token taken from the bucket it counts on. */
  lemma StepCounts(g: Settings, rates: map<string, Bucket>, s: State, step: Step, domain: Option<string>, t1: real,
                   t2: real)
    requires AllSending(g, s) && Enabled(rates, s, step)
    ensures Admitted(Visits(Apply(rates, s, step), KeyOf(domain)), t1, t2) ==
            Admitted(Visits(s, KeyOf(domain)), t1, t2) + if LetsOut(g, s, step, domain, t1, t2) then 1 else 0
  {
    var k := KeyOf(domain);
    if step.Execute? && !Conflict(s, s.clients[step.c]) {
      var x := s.clients[step.c];
      var own :| x.buckets == Buckets(g, own);
      CountsOn(g, x.buckets, own, domain);
      ExecsAfterCommit(rates, s, step.c, k);
      AdmittedOneMore(Visits(s, k), Visit(x.now, Allows(x.buckets, x.levels)), t1, t2);
    } else {
      QuietStep(rates, s, step, k);
    }
  }

  lemma {:induction false} VisitsCountMessages(g: Settings, rates: map<string, Bucket>, s: State, steps: seq<Step>,
                                               t: State,
                                               domain: Option<string>, t1: real, t2: real)
    requires Reaches(rates, s, steps, t) && AllSending(g, s) && AsksForSends(g, steps)
    ensures Admitted(Visits(t, KeyOf(domain)), t1, t2) ==
            Admitted(Visits(s, KeyOf(domain)), t1, t2) + LetOutIn(g, rates, s, steps, t, domain, t1, t2)
    decreases |steps|
  {
    if steps != [] {
      StepCounts(g, rates, s, steps[0], domain, t1, t2);
      StepKeepsSending(g, rates, s, steps[0]);
      forall i | 0 <= i < |steps[1..]| ensures steps[1..][i] == steps[i + 1] {}
      VisitsCountMessages(g, rates, Apply(rates, s, steps[0]), steps[1..], t, domain, t1, t2);
    }
  }

  // ----- The rates of the two keys -----

  /** The bucket a message counts on, in the settings' numbers. */
  ghost predicate IsLimit(b: Bucket, n: int) {
    b.capacity == n as real && b.refill == n as real / 60.0 && b.requested == 1.0
  }

  function PerMinute(g: Settings, domain: Option<string>): int {
    if domain.Some? then DomainPerMinute(g) else GlobalPerMinute(g)
  }

  lemma LimitsOfSends(g: Settings, domain: string)
    ensures var bs := Buckets(g, domain);
            |bs| == 2 && IsLimit(bs[0], GlobalPerMinute(g)) && IsLimit(bs[1], DomainPerMinute(g))
  {
  }

  lemma {:induction false} RateKnown(g: Settings, rates: map<string, Bucket>, s: State, steps: seq<Step>, t: State,
                                     domain: Option<string>, t1: real, t2: real)
    requires Sensible(rates) && Watch.Sound(rates, s) && Reaches(rates, s, steps, t) && AllSending(g, s)
    requires AsksForSends(g, steps) && LetOutIn(g, rates, s, steps, t, domain, t1, t2) > 0
    ensures KeyOf(domain) in rates && IsLimit(rates[KeyOf(domain)], PerMinute(g, domain))
    decreases |steps|
  {
    if LetsOut(g, s, steps[0], domain, t1, t2) {
      var x := s.clients[steps[0].c];
      assert ClientSound(rates, s, x);
      var own :| x.buckets == Buckets(g, own);
      KeysOfSends(g, own);
      LimitsOfSends(g, own);
      if domain.Some? { KeysOfSends(g, domain.value); LimitsOfSends(g, domain.value); }
      assert x.buckets[0].key in rates && x.buckets[1].key in rates;
    } else {
      StepKeepsSound(rates, s, steps[0]);
      StepKeepsSending(g, rates, s, steps[0]);
      forall i | 0 <= i < |steps[1..]| ensures steps[1..][i] == steps[i + 1] {}
      RateKnown(g, rates, Apply(rates, s, steps[0]), steps[1..], t, domain, t1, t2);
    }
  }

  lemma LetOutIsAllowance(b: Bucket, n: int, d: real)
    requires IsLimit(b, n)
    ensures Allowance(b, d) == LetOut(n, d)
  {
  }

  /**
   The two limits, in every run in which messages are what clients ask for, contended and with keys that expire. In a
   window of `d` seconds the messages to all domains number at most a minute's worth of the global setting and what it
   refills in `d`, and those to one domain as much by the domain setting.
   */
  lemma {:induction false} SettingsBoundMessages(g: Settings, rates: map<string, Bucket>, s: State, steps: seq<Step>,
                                                 t: State,
                                                 domain: string, t1: real, t2: real)
    requires Sensible(rates) && Start(s) && Reaches(rates, s, steps, t) && AsksForSends(g, steps) && t1 <= t2
    ensures LetOutIn(g, rates, s, steps, t, None, t1, t2) as real <= LetOut(GlobalPerMinute(g), t2 - t1)
    ensures LetOutIn(g, rates, s, steps, t, Some(domain), t1, t2) as real <= LetOut(DomainPerMinute(g), t2 - t1)
  {
    OneLimit(g, rates, s, steps, t, None, t1, t2);
    OneLimit(g, rates, s, steps, t, Some(domain), t1, t2);
  }

  lemma LetOutNonNegative(n: int, d: real)
    requires n >= 1 && d >= 0.0
    ensures LetOut(n, d) >= 0.0
  {
    ScaleLe(n as real, 0.0, d);
  }

  lemma {:induction false} OneLimit(g: Settings, rates: map<string, Bucket>, s: State, steps: seq<Step>, t: State,
                                    domain: Option<string>, t1: real, t2: real)
    requires Sensible(rates) && Start(s) && Reaches(rates, s, steps, t) && AsksForSends(g, steps) && t1 <= t2
    ensures LetOutIn(g, rates, s, steps, t, domain, t1, t2) as real <= LetOut(PerMinute(g, domain), t2 - t1)
  {
    var k := KeyOf(domain);
    LetOutNonNegative(PerMinute(g, domain), t2 - t1);
    if LetOutIn(g, rates, s, steps, t, domain, t1, t2) > 0 {
      RateKnown(g, rates, s, steps, t, domain, t1, t2);
      VisitsCountMessages(g, rates, s, steps, t, domain, t1, t2);
      RateBoundOverRuns(rates, s, steps, t, k, t1, t2);
      LetOutIsAllowance(rates[k], PerMinute(g, domain), t2 - t1);
    }
  }

  // ----- The limits are reached -----

  function Least(a: int, b: int): int {
    if a <= b then a else b
  }

  /** How many messages to one domain an idle installation lets out at once. */
  function AtOnce(g: Settings): int {
    Least(GlobalPerMinute(g), DomainPerMinute(g))
  }

  /** The store after `n` messages to the domain have asked at the same instant, let out or not. */
  function AfterAsking(g: Settings, domain: string, now: real, n: nat): map<string, TokenBucket.Cell> {
    if n == 0 then map[] else Take(AfterAsking(g, domain, now, n - 1), Buckets(g, domain), now).0
  }

  lemma FullLess(b: Bucket, taken: int, now: real)
    requires 0 <= taken && taken as real <= b.capacity
    ensures Level(b, Some(Cell(b.capacity - taken as real, now)), now) == b.capacity - taken as real
  {
  }

  /** `n` of the messages have been let out. */
  ghost predicate Left(g: Settings, domain: string, now: real, store: map<string, TokenBucket.Cell>, n: nat) {
    forall b | b in Buckets(g, domain) ::
      Level(b, Lookup(store, b.key), now) == b.capacity - Least(n, AtOnce(g)) as real
  }

  /** What is left after one more. */
  lemma OneLess(g: Settings, b: Bucket, now: real, n: nat, allowed: bool)
    requires b.capacity >= AtOnce(g) as real && b.requested == 1.0 && (allowed <==> n < AtOnce(g))
    ensures var level := b.capacity - Least(n, AtOnce(g)) as real;
            Level(b, Some(Cell(if allowed then level - b.requested else level, now)), now) ==
            b.capacity - Least(n + 1, AtOnce(g)) as real
  {
    FullLess(b, Least(n + 1, AtOnce(g)), now);
  }

  lemma StillLeft(g: Settings, domain: string, now: real, store: map<string, TokenBucket.Cell>, n: nat)
    requires Left(g, domain, now, store, n)
    ensures Left(g, domain, now, Take(store, Buckets(g, domain), now).0, n + 1)
  {
    var bs := Buckets(g, domain);
    var ls := Levels(store, bs, now);
    LimitsOfSends(g, domain);
    SendBucketsFit(domain, g.override, g.globalRate, g.domainRate);
    assert forall i | 0 <= i < 2 :: bs[i] in bs;
    AllowedWhile(g, bs, ls, n);
    forall i | 0 <= i < 2
      ensures Level(bs[i], Lookup(Written(store, bs, ls, Allows(bs, ls), now), bs[i].key), now) ==
              bs[i].capacity - Least(n + 1, AtOnce(g)) as real
    {
      WrittenAt(store, bs, ls, Allows(bs, ls), now, i);
      OneLess(g, bs[i], now, n, Allows(bs, ls));
    }
  }

  lemma AllLeft(g: Settings, domain: string, now: real)
    ensures Left(g, domain, now, map[], 0)
  {
    forall b | b in Buckets(g, domain) ensures Level(b, Lookup(map[], b.key), now) == b.capacity {}
  }

  /** What both buckets hold then. */
  lemma {:induction false} LeftAfterAsking(g: Settings, domain: string, now: real, n: nat)
    ensures Left(g, domain, now, AfterAsking(g, domain, now, n), n)
  {
    if n == 0 {
      AllLeft(g, domain, now);
    } else {
      LeftAfterAsking(g, domain, now, n - 1);
      StillLeft(g, domain, now, AfterAsking(g, domain, now, n - 1), n - 1);
    }
  }

  lemma AllowedWhile(g: Settings, bs: seq<Bucket>, ls: seq<real>, n: nat)
    requires |bs| == |ls| == 2 && IsLimit(bs[0], GlobalPerMinute(g)) && IsLimit(bs[1], DomainPerMinute(g))
    requires forall i | 0 <= i < 2 :: ls[i] == bs[i].capacity - Least(n, AtOnce(g)) as real
    ensures Allows(bs, ls) <==> n < AtOnce(g)
  {
    if n >= AtOnce(g) {
      if GlobalPerMinute(g) <= DomainPerMinute(g) {
        assert ls[0] < bs[0].requested;
      } else {
        assert ls[1] < bs[1].requested;
      }
    }
  }

  /** From an empty store, of any number of messages to one domain at one instant exactly the first ones are let out. */
  lemma {:induction false} LimitsAreReached(g: Settings, domain: string, now: real, n: nat)
    ensures Take(AfterAsking(g, domain, now, n), Buckets(g, domain), now).1.allowed <==>
            n < GlobalPerMinute(g) && n < DomainPerMinute(g)
  {
    var bs := Buckets(g, domain);
    LimitsOfSends(g, domain);
    LeftAfterAsking(g, domain, now, n);
    assert forall i | 0 <= i < 2 :: bs[i] in bs;
    AllowedWhile(g, bs, Levels(AfterAsking(g, domain, now, n), bs, now), n);
  }
}
