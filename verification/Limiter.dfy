/** Per-key token buckets whose idle entries are swept.  Times are seconds; the bucket follows the
    standard token-bucket rule of the rate library, over real numbers. */
module Limiter {
  import opened Basics

  const FIFTEEN_MINUTES: real := 900.0

  /** The longest gap between stamping an entry and asking its bucket for which sweeping is invisible. */
  const MAX_GAP: real := 720.0

  function Rate(perMinute: nat): (r: real) {
    perMinute as real / 60.0
  }

  function Burst(perMinute: nat): (b: nat)
    ensures b >= 3
  {
    if perMinute / 6 > 3 then perMinute / 6 else 3
  }

  /** Tokens that flow in during `dt` seconds. */
  function Inflow(perMinute: nat, dt: real): (r: real) {
    Rate(perMinute) * dt
  }

  datatype Bucket = Bucket(tokens: real, at: real)

  function Full(perMinute: nat, now: real): (b: Bucket) {
    Bucket(Burst(perMinute) as real, now)
  }

  function Level(perMinute: nat, b: Bucket, t: real): (l: real) {
    var l := b.tokens + Inflow(perMinute, t - b.at);
    if l > Burst(perMinute) as real then Burst(perMinute) as real else l
  }

  /** `Allow` at time t: take one token if there is one. */
  function Take(perMinute: nat, b: Bucket, t: real): (r: (Bucket, bool)) {
    var l := Level(perMinute, b, t);
    if l >= 1.0 then (Bucket(l - 1.0, t), true) else (b, false)
  }

  // ---- the two systems ----

  datatype Entry = Entry(bucket: Bucket, last: real)

  type Seen = map<string, Entry>
  type Kept = map<string, Bucket>

  /** A request stamps its entry at `touched` and asks the bucket at `asked`; a sweep runs at `now`. */
  datatype Event = Ask(key: string, touched: real, asked: real) | Sweep(now: real)

  function Clock(e: Event): (t: real) {
    match e case Ask(_, _, asked) => asked case Sweep(now) => now
  }

  /** Time does not run backwards, and a request does not linger between its two readings. */
  predicate Timely(clock: real, e: Event) {
    match e
    case Ask(_, touched, asked) => clock <= touched <= asked <= touched + MAX_GAP
    case Sweep(now) => clock <= now
  }

  function BucketOf(perMinute: nat, seen: Seen, key: string, now: real): (b: Bucket) {
    if key in seen then seen[key].bucket else Full(perMinute, now)
  }

  function Swept(seen: Seen, now: real): (seen': Seen) {
    map k | k in seen && !(seen[k].last < now - FIFTEEN_MINUTES) :: seen[k]
  }

  /** The limiter as written. */
  function StepSeen(perMinute: nat, seen: Seen, e: Event): (r: (Seen, seq<bool>)) {
    match e
    case Ask(key, touched, asked) =>
      var (b, ok) := Take(perMinute, BucketOf(perMinute, seen, key, touched), asked);
      (seen[key := Entry(b, touched)], [ok])
    case Sweep(now) => (Swept(seen, now), [])
  }

  /** The reference: buckets kept for ever. */
  function StepKept(perMinute: nat, kept: Kept, e: Event): (r: (Kept, seq<bool>)) {
    match e
    case Ask(key, touched, asked) =>
      var (b, ok) := Take(perMinute, if key in kept then kept[key] else Full(perMinute, touched), asked);
      (kept[key := b], [ok])
    case Sweep(_) => (kept, [])
  }

  predicate TimelyRun(clock: real, es: seq<Event>)
    decreases |es|
  {
    es == [] || (Timely(clock, es[0]) && TimelyRun(Clock(es[0]), es[1..]))
  }

  function DecisionsSeen(perMinute: nat, seen: Seen, es: seq<Event>): (ds: seq<bool>)
    decreases |es|
  {
    if es == [] then []
    else
      var (seen', d) := StepSeen(perMinute, seen, es[0]);
      d + DecisionsSeen(perMinute, seen', es[1..])
  }

  function DecisionsKept(perMinute: nat, kept: Kept, es: seq<Event>): (ds: seq<bool>)
    decreases |es|
  {
    if es == [] then []
    else
      var (kept', d) := StepKept(perMinute, kept, es[0]);
      d + DecisionsKept(perMinute, kept', es[1..])
  }

  // ---- eviction is unobservable ----

  lemma InflowLaws(perMinute: nat, a: real, b: real)
    ensures Inflow(perMinute, a) + Inflow(perMinute, b) == Inflow(perMinute, a + b)
    ensures a <= b ==> Inflow(perMinute, a) <= Inflow(perMinute, b)
    ensures Inflow(perMinute, 0.0) == 0.0
  {
    var r := Rate(perMinute);
    assert r * a + r * b == r * (a + b);
    if a <= b { assert r * (b - a) >= 0.0; }
  }

  /** Three minutes fill any bucket. */
  lemma ThreeMinutesFill(perMinute: nat)
    requires perMinute >= 1
    ensures Inflow(perMinute, 180.0) >= Burst(perMinute) as real
  {
    var pm := perMinute as real;
    assert Inflow(perMinute, 180.0) == 3.0 * pm;
    assert (perMinute / 6) as real <= pm;
  }

  /** The bucket holds no debt and was last changed at most the gap after `last`. */
  predicate EntryOk(clock: real, e: Entry) {
    e.bucket.tokens >= 0.0 && e.bucket.at <= e.last + MAX_GAP && e.bucket.at <= clock && e.last <= clock
  }

  /** Present entries carry the reference's bucket; a bucket that is missing would be full by now. */
  ghost predicate Agree(perMinute: nat, clock: real, seen: Seen, kept: Kept) {
    && (forall k :: k in seen ==> k in kept && kept[k] == seen[k].bucket && EntryOk(clock, seen[k]))
    && (forall k :: k in kept && k !in seen ==>
          kept[k].at <= clock && Level(perMinute, kept[k], clock) == Burst(perMinute) as real)
  }

  /** A full bucket stays full. */
  lemma FullStaysFull(perMinute: nat, b: Bucket, s: real, t: real)
    requires s <= t && Level(perMinute, b, s) == Burst(perMinute) as real
    ensures Level(perMinute, b, t) == Burst(perMinute) as real
  {
    hide Inflow;
    InflowLaws(perMinute, s - b.at, t - b.at);
  }

  lemma FreshIsFull(perMinute: nat, s: real, t: real)
    requires s <= t
    ensures Level(perMinute, Full(perMinute, s), t) == Burst(perMinute) as real
  {
    hide Inflow;
    InflowLaws(perMinute, 0.0, t - s);
  }

  /** An entry old enough to be swept has a full bucket. */
  lemma IdleIsFull(perMinute: nat, clock: real, e: Entry, now: real)
    requires perMinute >= 1 && EntryOk(clock, e) && e.last < now - FIFTEEN_MINUTES
    ensures e.bucket.at <= now && Level(perMinute, e.bucket, now) == Burst(perMinute) as real
  {
    hide Inflow;
    ThreeMinutesFill(perMinute);
    InflowLaws(perMinute, 180.0, now - e.bucket.at);
  }

  lemma TakeOk(perMinute: nat, b: Bucket, t: real)
    requires b.tokens >= 0.0 && b.at <= t
    ensures var (b', ok) := Take(perMinute, b, t); b'.tokens >= 0.0 && b'.at <= t && (b'.at == t || b' == b)
  {
  }

  lemma AskAgrees(perMinute: nat, clock: real, seen: Seen, kept: Kept, e: Event)
    requires perMinute >= 1 && Agree(perMinute, clock, seen, kept) && Timely(clock, e) && e.Ask?
    ensures StepSeen(perMinute, seen, e).1 == StepKept(perMinute, kept, e).1
    ensures Agree(perMinute, Clock(e), StepSeen(perMinute, seen, e).0, StepKept(perMinute, kept, e).0)
  {
    hide Inflow, Burst;
    var bs := BucketOf(perMinute, seen, e.key, e.touched);
    var bk := if e.key in kept then kept[e.key] else Full(perMinute, e.touched);
    if e.key !in seen {
      FreshIsFull(perMinute, e.touched, e.asked);
      if e.key in kept { FullStaysFull(perMinute, bk, clock, e.asked); }
    }
    assert bs == bk || Level(perMinute, bs, e.asked) == Level(perMinute, bk, e.asked) == Burst(perMinute) as real;
    BurstPositive(perMinute);
    TakeOk(perMinute, bs, e.asked);
    forall k | k in kept && k !in seen && k != e.key
      ensures kept[k].at <= e.asked && Level(perMinute, kept[k], e.asked) == Burst(perMinute) as real
    {
      FullStaysFull(perMinute, kept[k], clock, e.asked);
    }
  }

  lemma BurstPositive(perMinute: nat)
    ensures Burst(perMinute) as real >= 3.0
  {
  }

  lemma SweepAgrees(perMinute: nat, clock: real, seen: Seen, kept: Kept, now: real)
    requires perMinute >= 1 && Agree(perMinute, clock, seen, kept) && clock <= now
    ensures Agree(perMinute, now, Swept(seen, now), kept)
  {
    hide Inflow, Burst, Level;
    var seen' := Swept(seen, now);
    forall k | k in kept && k !in seen'
      ensures kept[k].at <= now && Level(perMinute, kept[k], now) == Burst(perMinute) as real
    {
      if k in seen { IdleIsFull(perMinute, clock, seen[k], now); } else { FullStaysFull(perMinute, kept[k], clock, now); }
    }
  }

  lemma {:induction false} SweepingIsInvisible(perMinute: nat, clock: real, seen: Seen, kept: Kept, es: seq<Event>)
    requires perMinute >= 1 && Agree(perMinute, clock, seen, kept) && TimelyRun(clock, es)
    ensures DecisionsSeen(perMinute, seen, es) == DecisionsKept(perMinute, kept, es)
    decreases |es|
  {
    hide Agree, StepKept;
    if es != [] {
      var e := es[0];
      match e
      case Ask(_, _, _) =>
        AskAgrees(perMinute, clock, seen, kept, e);
        SweepingIsInvisible(perMinute, e.asked, StepSeen(perMinute, seen, e).0, StepKept(perMinute, kept, e).0, es[1..]);
      case Sweep(now) =>
        SweepAgrees(perMinute, clock, seen, kept, now);
        SweepDecidesNothing(perMinute, kept, now);
        SweepingIsInvisible(perMinute, now, Swept(seen, now), kept, es[1..]);
    }
  }

  lemma SweepDecidesNothing(perMinute: nat, kept: Kept, now: real)
    ensures StepKept(perMinute, kept, Sweep(now)) == (kept, [])
  {
  }

  /** For every positive limit and every trace of requests and sweeps, the limiter decides exactly as
      if it never forgot a key. */
  lemma EvictionIsUnobservable(perMinute: nat, start: real, es: seq<Event>)
    requires perMinute >= 1 && TimelyRun(start, es)
    ensures DecisionsSeen(perMinute, map[], es) == DecisionsKept(perMinute, map[], es)
  {
    SweepingIsInvisible(perMinute, start, map[], map[], es);
  }

  lemma TimelyCons(clock: real, e: Event, es: seq<Event>)
    requires Timely(clock, e) && TimelyRun(Clock(e), es)
    ensures TimelyRun(clock, [e] + es)
  {
    assert ([e] + es)[1..] == es;
  }

  lemma UnfoldSeen(perMinute: nat, seen: Seen, e: Event, es: seq<Event>)
    ensures DecisionsSeen(perMinute, seen, [e] + es) == StepSeen(perMinute, seen, e).1 + DecisionsSeen(perMinute, StepSeen(perMinute, seen, e).0, es)
  {
    hide StepSeen;
    assert ([e] + es)[1..] == es;
  }

  lemma UnfoldKept(perMinute: nat, kept: Kept, e: Event, es: seq<Event>)
    ensures DecisionsKept(perMinute, kept, [e] + es) == StepKept(perMinute, kept, e).1 + DecisionsKept(perMinute, StepKept(perMinute, kept, e).0, es)
  {
    hide StepKept;
    assert ([e] + es)[1..] == es;
  }

  /** Three requests at one instant: a full bucket of three grants the third, one with just over two
      tokens does not. */
  lemma ThirdRequest(seen: Seen, kept: Kept, key: string)
    requires key !in seen && key in kept && kept[key] == Bucket(2.0, 950.0)
    ensures var q := Ask(key, 951.0, 951.0);
            DecisionsSeen(1, seen, [q] + ([q] + ([q] + []))) != DecisionsKept(1, kept, [q] + ([q] + ([q] + [])))
  {
    var q := Ask(key, 951.0, 951.0);
    var s1, k1 := StepSeen(1, seen, q), StepKept(1, kept, q);
    var s2, k2 := StepSeen(1, s1.0, q), StepKept(1, k1.0, q);
    var s3, k3 := StepSeen(1, s2.0, q), StepKept(1, k2.0, q);
    assert s1.1 == k1.1 == s2.1 == k2.1 == s3.1 == [true] && k3.1 == [false];
    UnfoldSeen(1, seen, q, [q] + ([q] + []));
    UnfoldSeen(1, s1.0, q, [q] + []);
    UnfoldSeen(1, s2.0, q, []);
    UnfoldKept(1, kept, q, [q] + ([q] + []));
    UnfoldKept(1, k1.0, q, [q] + []);
    UnfoldKept(1, k2.0, q, []);
    assert DecisionsSeen(1, seen, [q] + ([q] + ([q] + [])))[2] != DecisionsKept(1, kept, [q] + ([q] + ([q] + [])))[2];
  }

  /** The gap is not a technicality: a request that lingers 950 seconds between stamping its entry and
      asking the bucket can be swept in between, and a later decision then differs. */
  lemma LingeringRequestIsVisible(key: string) returns (es: seq<Event>)
    ensures es != [] && es[0] == Ask(key, 0.0, 950.0) && TimelyRun(950.0, es[1..])
    ensures DecisionsSeen(1, map[], es) != DecisionsKept(1, map[], es)
  {
    var first, sweep, q := Ask(key, 0.0, 950.0), Sweep(951.0), Ask(key, 951.0, 951.0);
    var rest := [q] + ([q] + ([q] + []));
    es := [first] + ([sweep] + rest);
    var s1, k1 := StepSeen(1, map[], first), StepKept(1, map[], first);
    var s2, k2 := StepSeen(1, s1.0, sweep), StepKept(1, k1.0, sweep);
    assert s1.1 == k1.1 == [true] && k2.0[key] == Bucket(2.0, 950.0) && key !in s2.0;
    ThirdRequest(s2.0, k2.0, key);
    UnfoldSeen(1, map[], first, [sweep] + rest);
    UnfoldSeen(1, s1.0, sweep, rest);
    UnfoldKept(1, map[], first, [sweep] + rest);
    UnfoldKept(1, k1.0, sweep, rest);
    assert DecisionsSeen(1, map[], es)[1..] == DecisionsSeen(1, s2.0, rest);
    assert DecisionsKept(1, map[], es)[1..] == DecisionsKept(1, k2.0, rest);
    TimelyCons(951.0, q, []);
    TimelyCons(951.0, q, [q] + []);
    TimelyCons(951.0, q, [q] + ([q] + []));
    TimelyCons(950.0, sweep, rest);
    assert es[1..] == [sweep] + rest;
  }

  // ---- exactly when a sweep is invisible ----

  /** `n` requests for one key at one instant. */
  function Flood(key: string, n: nat, now: real): (es: seq<Event>) {
    if n == 0 then [] else [Ask(key, now, now)] + Flood(key, n - 1, now)
  }

  lemma {:induction false} FloodIsTimely(key: string, n: nat, now: real)
    ensures TimelyRun(now, Flood(key, n, now))
  {
    if n > 0 {
      FloodIsTimely(key, n - 1, now);
      TimelyCons(now, Ask(key, now, now), Flood(key, n - 1, now));
    }
  }

  lemma LevelAtOnce(perMinute: nat, l: real, now: real)
    ensures Level(perMinute, Bucket(l, now), now) == if l > Burst(perMinute) as real then Burst(perMinute) as real else l
  {
    hide Inflow, Burst;
    InflowLaws(perMinute, 0.0, 0.0);
  }

  /** Of `n` requests at one instant, the last is granted exactly when the bucket holds `n` tokens. */
  lemma {:induction false} FloodKept(perMinute: nat, kept: Kept, key: string, n: nat, now: real)
    requires n >= 1 && key in kept
    ensures var ds := DecisionsKept(perMinute, kept, Flood(key, n, now));
            |ds| == n && (ds[n - 1] <==> Level(perMinute, kept[key], now) >= n as real)
    decreases n
  {
    hide Burst, Inflow;
    var e, rest := Ask(key, now, now), Flood(key, n - 1, now);
    var l := Level(perMinute, kept[key], now);
    UnfoldKept(perMinute, kept, e, rest);
    LevelAtOnce(perMinute, l - 1.0, now);
    if n > 1 { FloodKept(perMinute, StepKept(perMinute, kept, e).0, key, n - 1, now); }
  }

  lemma {:induction false} FloodSeen(perMinute: nat, seen: Seen, key: string, n: nat, now: real)
    requires n >= 1
    ensures var ds := DecisionsSeen(perMinute, seen, Flood(key, n, now));
            |ds| == n && (ds[n - 1] <==> Level(perMinute, BucketOf(perMinute, seen, key, now), now) >= n as real)
    decreases n
  {
    hide Burst, Inflow;
    var e, rest := Ask(key, now, now), Flood(key, n - 1, now);
    var l := Level(perMinute, BucketOf(perMinute, seen, key, now), now);
    UnfoldSeen(perMinute, seen, e, rest);
    LevelAtOnce(perMinute, l - 1.0, now);
    if n > 1 { FloodSeen(perMinute, StepSeen(perMinute, seen, e).0, key, n - 1, now); }
  }

  /** The entries agree with the reference; those about to be swept may have lingered. */
  ghost predicate AgreeBut(perMinute: nat, clock: real, seen: Seen, kept: Kept, now: real) {
    && (forall k :: k in seen ==> k in kept && kept[k] == seen[k].bucket && kept[k].tokens >= 0.0 && kept[k].at <= clock)
    && (forall k :: k in Swept(seen, now) ==> EntryOk(clock, seen[k]))
    && (forall k :: k in kept && k !in seen ==>
          kept[k].at <= clock && Level(perMinute, kept[k], clock) == Burst(perMinute) as real)
  }

  /** The first whole number above `l`. */
  lemma NextWhole(l: real, bound: nat) returns (n: nat)
    requires 0.0 <= l < bound as real
    ensures n >= 1 && l < n as real && n <= bound
    decreases bound
  {
    if l < 1.0 {
      n := 1;
    } else {
      n := NextWhole(l - 1.0, bound - 1);
      n := n + 1;
    }
  }

  lemma VisibleIfNotFull(perMinute: nat, seen: Seen, kept: Kept, now: real, k: string)
    requires k in kept && k !in seen && 0.0 <= Level(perMinute, kept[k], now) < Burst(perMinute) as real
    ensures exists es :: TimelyRun(now, es) && DecisionsSeen(perMinute, seen, es) != DecisionsKept(perMinute, kept, es)
  {
    hide Burst, Inflow, Level, DecisionsSeen, DecisionsKept, TimelyRun, Flood;
    var l := Level(perMinute, kept[k], now);
    var n := NextWhole(l, Burst(perMinute));
    var es := Flood(k, n, now);
    FloodIsTimely(k, n, now);
    FloodKept(perMinute, kept, k, n, now);
    FloodSeen(perMinute, seen, k, n, now);
    FreshIsFull(perMinute, now, now);
    assert DecisionsSeen(perMinute, seen, es)[n - 1] != DecisionsKept(perMinute, kept, es)[n - 1];
  }

  /** A sweep can never be noticed by any later request exactly when every bucket it drops is full at
      that moment. */
  lemma SweepInvisibleIff(perMinute: nat, clock: real, seen: Seen, kept: Kept, now: real)
    requires perMinute >= 1 && clock <= now && AgreeBut(perMinute, clock, seen, kept, now)
    ensures (forall es :: TimelyRun(now, es) ==>
               DecisionsSeen(perMinute, Swept(seen, now), es) == DecisionsKept(perMinute, kept, es))
            <==> (forall k :: k in seen && k !in Swept(seen, now) ==> Level(perMinute, seen[k].bucket, now) == Burst(perMinute) as real)
  {
    hide Burst, Inflow, Level;
    var seen' := Swept(seen, now);
    if forall k :: k in seen && k !in seen' ==> Level(perMinute, seen[k].bucket, now) == Burst(perMinute) as real {
      forall k | k in kept && k !in seen'
        ensures kept[k].at <= now && Level(perMinute, kept[k], now) == Burst(perMinute) as real
      {
        if k !in seen { FullStaysFull(perMinute, kept[k], clock, now); }
      }
      forall es | TimelyRun(now, es) ensures DecisionsSeen(perMinute, seen', es) == DecisionsKept(perMinute, kept, es) {
        SweepingIsInvisible(perMinute, now, seen', kept, es);
      }
    } else {
      var k :| k in seen && k !in seen' && Level(perMinute, seen[k].bucket, now) != Burst(perMinute) as real;
      LevelGrowth(perMinute, kept[k], now, now);
      VisibleIfNotFull(perMinute, seen', kept, now, k);
    }
  }

  /** The burst is a sixth of the rate per minute, rounded down, but at least three. */
  lemma BurstIff(perMinute: nat, b: nat)
    ensures b == Burst(perMinute) <==> b >= 3 && 6 * b <= (if perMinute < 18 then 18 else perMinute) < 6 * b + 6
  {
  }

  /** A key not seen before gets exactly its burst at once: of any number of requests at one instant, the
      n-th is granted if and only if n is at most the burst. */
  lemma FreshKeyGetsBurst(perMinute: nat, key: string, n: nat, now: real)
    requires n >= 1
    ensures var ds := DecisionsSeen(perMinute, map[], Flood(key, n, now));
            |ds| == n && (ds[n - 1] <==> n <= Burst(perMinute))
  {
    hide Burst, Inflow, DecisionsSeen, Flood;
    FloodSeen(perMinute, map[], key, n, now);
    FreshIsFull(perMinute, now, now);
  }

  /** A minute brings in the rate. */
  lemma MinuteInflow(perMinute: nat)
    ensures Inflow(perMinute, 60.0) == perMinute as real
  {
  }

  // ---- the rate bound ----

  /** How many requests for `key` asked in the window from `a` to `end` are let through. */
  function Admitted(perMinute: nat, kept: Kept, es: seq<Event>, key: string, a: real, end: real): (n: nat)
    decreases |es|
  {
    if es == [] then 0
    else
      var (kept', d) := StepKept(perMinute, kept, es[0]);
      (if es[0].Ask? && es[0].key == key && a <= es[0].asked <= end && d == [true] then 1 else 0)
      + Admitted(perMinute, kept', es[1..], key, a, end)
  }

  ghost predicate KeptOk(kept: Kept, clock: real) {
    forall k :: k in kept ==> kept[k].tokens >= 0.0 && kept[k].at <= clock
  }

  lemma LevelGrowth(perMinute: nat, b: Bucket, s: real, t: real)
    requires b.tokens >= 0.0 && b.at <= s <= t
    ensures 0.0 <= Level(perMinute, b, t) <= Level(perMinute, b, s) + Inflow(perMinute, t - s)
    ensures Level(perMinute, b, t) <= Burst(perMinute) as real
  {
    hide Inflow;
    InflowLaws(perMinute, s - b.at, t - s);
    InflowLaws(perMinute, 0.0, s - b.at);
    InflowLaws(perMinute, 0.0, t - s);
    InflowLaws(perMinute, 0.0, t - b.at);
  }

  /** The level and the remaining inflow of a key, at some clock within the window. */
  function Budget(perMinute: nat, b: Bucket, clock: real, end: real): (r: real) {
    Level(perMinute, b, clock) + Inflow(perMinute, end - clock)
  }

  /** Waiting never raises the budget. */
  lemma BudgetShrinks(perMinute: nat, b: Bucket, s: real, t: real, end: real)
    requires b.tokens >= 0.0 && b.at <= s <= t <= end
    ensures 0.0 <= Budget(perMinute, b, t, end) <= Budget(perMinute, b, s, end)
  {
    hide Inflow;
    LevelGrowth(perMinute, b, s, t);
    InflowLaws(perMinute, t - s, end - t);
    InflowLaws(perMinute, 0.0, end - t);
  }

  /** Taking a token costs exactly one. */
  lemma TakeCosts(perMinute: nat, b: Bucket, t: real, end: real)
    requires b.tokens >= 0.0 && b.at <= t <= end
    ensures var (b', ok) := Take(perMinute, b, t);
            Budget(perMinute, b', t, end) == Budget(perMinute, b, t, end) - if ok then 1.0 else 0.0
  {
    hide Inflow;
    InflowLaws(perMinute, 0.0, 0.0);
    LevelGrowth(perMinute, b, t, t);
  }

  /** The bucket a key would be asked with. */
  function BucketFor(perMinute: nat, kept: Kept, key: string, now: real): (b: Bucket) {
    if key in kept then kept[key] else Full(perMinute, now)
  }

  /** What the key can still get in the window, seen from `clock`. */
  function Allowance(perMinute: nat, kept: Kept, key: string, clock: real, a: real, end: real): (r: real) {
    if clock < a then Burst(perMinute) as real + Inflow(perMinute, end - a)
    else if clock <= end then Budget(perMinute, BucketFor(perMinute, kept, key, clock), clock, end)
    else 0.0
  }

  lemma FullBudget(perMinute: nat, s: real, t: real, end: real)
    requires s <= t <= end
    ensures Budget(perMinute, Full(perMinute, s), t, end) == Burst(perMinute) as real + Inflow(perMinute, end - t)
  {
    hide Inflow;
    FreshIsFull(perMinute, s, t);
  }

  /** Moving the clock into the window, the budget is within the allowance. */
  lemma WithinAllowance(perMinute: nat, kept: Kept, key: string, clock: real, s: real, t: real, a: real, end: real)
    requires KeptOk(kept, clock) && clock <= s <= t && a <= t <= end
    ensures 0.0 <= Budget(perMinute, BucketFor(perMinute, kept, key, s), t, end) <= Allowance(perMinute, kept, key, clock, a, end)
  {
    hide Inflow, Level, Burst;
    var b := BucketFor(perMinute, kept, key, s);
    InflowLaws(perMinute, end - t, end - a);
    InflowLaws(perMinute, end - t, end - clock);
    InflowLaws(perMinute, 0.0, end - t);
    BurstPositive(perMinute);
    if key in kept {
      if clock < a {
        LevelGrowth(perMinute, b, t, t);
      } else {
        BudgetShrinks(perMinute, b, clock, t, end);
      }
    } else {
      FullBudget(perMinute, s, t, end);
      if clock >= a { FullBudget(perMinute, clock, clock, end); }
    }
  }

  lemma AllowanceNotNegative(perMinute: nat, kept: Kept, key: string, clock: real, a: real, end: real)
    requires KeptOk(kept, clock) && a <= end
    ensures Allowance(perMinute, kept, key, clock, a, end) >= 0.0
  {
    hide Inflow, Level, Budget;
    BurstPositive(perMinute);
    InflowLaws(perMinute, 0.0, end - a);
    if a <= clock <= end { WithinAllowance(perMinute, kept, key, clock, clock, clock, a, end); }
  }

  lemma StepKeptOk(perMinute: nat, kept: Kept, clock: real, e: Event)
    requires KeptOk(kept, clock) && Timely(clock, e)
    ensures KeptOk(StepKept(perMinute, kept, e).0, Clock(e))
  {
    hide Level;
    if e.Ask? {
      BurstPositive(perMinute);
      TakeOk(perMinute, BucketFor(perMinute, kept, e.key, e.touched), e.asked);
    }
  }

  /** One event uses up at least what it admits. */
  lemma StepSpends(perMinute: nat, kept: Kept, clock: real, e: Event, key: string, a: real, end: real)
    requires KeptOk(kept, clock) && Timely(clock, e) && a <= end
    ensures var (kept', d) := StepKept(perMinute, kept, e);
            (if e.Ask? && e.key == key && a <= e.asked <= end && d == [true] then 1.0 else 0.0)
            + Allowance(perMinute, kept', key, Clock(e), a, end) <= Allowance(perMinute, kept, key, clock, a, end)
  {
    hide Inflow, Level, Burst, Budget, Full;
    var t := Clock(e);
    var (kept', d) := StepKept(perMinute, kept, e);
    AllowanceNotNegative(perMinute, kept, key, clock, a, end);
    if a <= t <= end {
      if e.Ask? && e.key == key {
        var b := BucketFor(perMinute, kept, key, e.touched);
        FullNotNegative(perMinute, e.touched);
        TakeCosts(perMinute, b, t, end);
        WithinAllowance(perMinute, kept, key, clock, e.touched, t, a, end);
      } else {
        WithinAllowance(perMinute, kept, key, clock, t, t, a, end);
      }
    }
  }

  lemma FullNotNegative(perMinute: nat, now: real)
    ensures Full(perMinute, now).tokens >= 0.0 && Full(perMinute, now).at == now
  {
  }

  lemma {:induction false} AdmittedBound(perMinute: nat, kept: Kept, clock: real, es: seq<Event>, key: string, a: real, end: real)
    requires KeptOk(kept, clock) && TimelyRun(clock, es) && a <= end
    ensures Admitted(perMinute, kept, es, key, a, end) as real <= Allowance(perMinute, kept, key, clock, a, end)
    decreases |es|
  {
    hide Allowance, StepKept, KeptOk;
    AllowanceNotNegative(perMinute, kept, key, clock, a, end);
    if es != [] {
      StepKeptOk(perMinute, kept, clock, es[0]);
      StepSpends(perMinute, kept, clock, es[0], key, a, end);
      AdmittedBound(perMinute, StepKept(perMinute, kept, es[0]).0, Clock(es[0]), es[1..], key, a, end);
    }
  }

  /** No window of length T lets more than burst + rate * T requests of one key through, whatever came
      before it; and the swept limiter makes the same decisions. */
  lemma RateBound(perMinute: nat, start: real, es: seq<Event>, key: string, a: real, T: real)
    requires perMinute >= 1 && TimelyRun(start, es) && T >= 0.0
    ensures Admitted(perMinute, map[], es, key, a, a + T) as real <= Burst(perMinute) as real + Inflow(perMinute, T)
    ensures DecisionsSeen(perMinute, map[], es) == DecisionsKept(perMinute, map[], es)
  {
    hide DecisionsSeen, DecisionsKept, Admitted, TimelyRun, Burst, Rate, Inflow, Budget;
    EvictionIsUnobservable(perMinute, start, es);
    AdmittedBound(perMinute, map[], start, es, key, a, a + T);
    if a <= start <= a + T {
      FullBudget(perMinute, start, start, a + T);
      InflowLaws(perMinute, a + T - start, T);
    }
    InflowLaws(perMinute, 0.0, T);
    BurstPositive(perMinute);
  }

  // ---- the limiter itself ----

  class LimiterSet {
    const perMinute: nat
    var seen: Seen

    constructor (perMinute: nat)
      ensures this.perMinute == perMinute && seen == map[]
    {
      this.perMinute, seen := perMinute, map[];
    }

    method Allow(key: string, touched: real, asked: real) returns (ok: bool)
      modifies this
      ensures (seen, [ok]) == StepSeen(perMinute, old(seen), Ask(key, touched, asked))
    {
      var b := Full(perMinute, touched);
      if key in seen { b := seen[key].bucket; }
      seen := seen[key := Entry(b, touched)];
      b, ok := Take(perMinute, b, asked).0, Take(perMinute, b, asked).1;
      seen := seen[key := Entry(b, touched)];
      assert seen == old(seen)[key := Entry(b, touched)];
    }

    /** One tick of the sweeper. */
    method SweepOnce(now: real)
      modifies this
      ensures seen == Swept(old(seen), now)
    {
      var order := IterationOrder(seen);
      var cut := now - FIFTEEN_MINUTES;
      for k := 0 to |order|
        invariant forall x :: x in seen ==> x in old(seen) && seen[x] == old(seen)[x]
        invariant forall x :: x in old(seen) && x !in seen ==> old(seen)[x].last < cut
        invariant forall i :: 0 <= i < k && order[i] in seen ==> !(seen[order[i]].last < cut)
      {
        var key := order[k];
        if key in seen && seen[key].last < cut { seen := seen - {key}; }
      }
      forall x | x in seen ensures !(seen[x].last < cut) {
        assert x in order;
      }
    }
  }
}
