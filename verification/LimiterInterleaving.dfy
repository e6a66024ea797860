/** The limiter under concurrent requests: a request finds or makes its entry and stamps it under the
    lock, then asks the bucket outside it, so other requests and sweeps may come in between, and an
    entry may leave the map while a request still holds it. */
module LimiterInterleaving {
  import opened Basics
  import opened Limiter

  type ThreadId = nat
  type Ref = nat

  datatype Slot = Slot(ref: Ref, last: real)

  /** A request that has stamped its entry and not yet asked. */
  datatype Pending = Pending(key: string, ref: Ref, touched: real)

  /** The map, the bucket objects (also those no longer in the map), and the requests in flight. */
  datatype Shared = Shared(seen: map<string, Slot>, buckets: map<Ref, Bucket>, pending: map<ThreadId, Pending>, next: Ref)

  const START := Shared(map[], map[], map[], 0)

  datatype Call = Touch(t: ThreadId, key: string, now: real) | Draw(t: ThreadId, now: real) | SweepCall(now: real)

  /** Time does not run backwards, and no request lingers longer than the gap before it asks.  (A
      request's bucket object always exists: buckets are made once and never removed.) */
  predicate Legal(clock: real, s: Shared, c: Call) {
    && clock <= c.now
    && match c
       case Touch(t, _, _) => t !in s.pending
       case Draw(t, now) => t in s.pending && s.pending[t].ref in s.buckets && now <= s.pending[t].touched + MAX_GAP
       case SweepCall(_) => true
  }

  function Touched(perMinute: nat, s: Shared, key: string, now: real): (s': Shared) {
    if key in s.seen then s.(seen := s.seen[key := Slot(s.seen[key].ref, now)])
    else Shared(s.seen[key := Slot(s.next, now)], s.buckets[s.next := Full(perMinute, now)], s.pending, s.next + 1)
  }

  function Next(perMinute: nat, s: Shared, c: Call): (r: (Shared, seq<bool>))
    requires c.Draw? ==> c.t in s.pending && s.pending[c.t].ref in s.buckets
  {
    match c
    case Touch(t, key, now) =>
      var s1 := Touched(perMinute, s, key, now);
      (s1.(pending := s1.pending[t := Pending(key, s1.seen[key].ref, now)]), [])
    case Draw(t, now) =>
      var p := s.pending[t];
      var (b, ok) := Take(perMinute, s.buckets[p.ref], now);
      (s.(buckets := s.buckets[p.ref := b], pending := s.pending - {t}), [ok])
    case SweepCall(now) =>
      (s.(seen := map k | k in s.seen && !(s.seen[k].last < now - FIFTEEN_MINUTES) :: s.seen[k]), [])
  }

  predicate LegalRun(perMinute: nat, clock: real, s: Shared, run: seq<Call>)
    decreases |run|
  {
    run == [] || (Legal(clock, s, run[0]) && LegalRun(perMinute, run[0].now, Next(perMinute, s, run[0]).0, run[1..]))
  }

  function Decisions(perMinute: nat, clock: real, s: Shared, run: seq<Call>): (ds: seq<bool>)
    requires LegalRun(perMinute, clock, s, run)
    decreases |run|
  {
    if run == [] then []
    else
      var (s', d) := Next(perMinute, s, run[0]);
      d + Decisions(perMinute, run[0].now, s', run[1..])
  }

  /** The requests in the order in which they ask. */
  function Asks(perMinute: nat, clock: real, s: Shared, run: seq<Call>): (es: seq<Event>)
    requires LegalRun(perMinute, clock, s, run)
    decreases |run|
  {
    if run == [] then []
    else AskOf(s, run[0]) + Asks(perMinute, run[0].now, Next(perMinute, s, run[0]).0, run[1..])
  }

  function AskOf(s: Shared, c: Call): (es: seq<Event>)
    requires c.Draw? ==> c.t in s.pending
  {
    if c.Draw? then [Ask(s.pending[c.t].key, c.now, c.now)] else []
  }

  // ---- the invariant ----

  ghost predicate RefsOk(s: Shared) {
    && (forall r :: r in s.buckets ==> r < s.next)
    && (forall k :: k in s.seen ==> s.seen[k].ref in s.buckets)
    && (forall k, l :: k in s.seen && l in s.seen && s.seen[k].ref == s.seen[l].ref ==> k == l)
  }

  predicate IsFull(perMinute: nat, clock: real, b: Bucket) {
    b.at <= clock && Level(perMinute, b, clock) == Burst(perMinute) as real
  }

  /** The entry holds the reference's bucket, or both would be full. */
  predicate SlotAgrees(perMinute: nat, clock: real, s: Shared, kept: Kept, k: string)
    requires k in s.seen && s.seen[k].ref in s.buckets
  {
    var b := s.buckets[s.seen[k].ref];
    || (k in kept && kept[k] == b)
    || (IsFull(perMinute, clock, b) && (k in kept ==> IsFull(perMinute, clock, kept[k])))
  }

  ghost predicate SlotsOk(perMinute: nat, clock: real, s: Shared, kept: Kept)
    requires RefsOk(s)
  {
    && (forall k :: k in s.seen ==>
          EntryOk(clock, Entry(s.buckets[s.seen[k].ref], s.seen[k].last)) && SlotAgrees(perMinute, clock, s, kept, k))
    && (forall k :: k in kept && k !in s.seen ==> IsFull(perMinute, clock, kept[k]))
  }

  /** A request that may still ask holds the entry that is in the map. */
  ghost predicate PendingOk(clock: real, s: Shared) {
    forall t :: t in s.pending && clock <= s.pending[t].touched + MAX_GAP ==>
      && s.pending[t].key in s.seen
      && s.seen[s.pending[t].key].ref == s.pending[t].ref
      && s.pending[t].touched <= s.seen[s.pending[t].key].last
  }

  ghost predicate SharedOk(perMinute: nat, clock: real, s: Shared, kept: Kept) {
    RefsOk(s) && SlotsOk(perMinute, clock, s, kept) && PendingOk(clock, s)
  }

  lemma StillFull(perMinute: nat, clock: real, now: real, b: Bucket)
    requires clock <= now && IsFull(perMinute, clock, b)
    ensures IsFull(perMinute, now, b)
  {
    FullStaysFull(perMinute, b, clock, now);
  }

  /** Time passing keeps the invariant. */
  lemma LaterOk(perMinute: nat, clock: real, now: real, s: Shared, kept: Kept)
    requires SharedOk(perMinute, clock, s, kept) && clock <= now
    ensures SharedOk(perMinute, now, s, kept)
  {
    hide Level, Burst;
    forall b | IsFull(perMinute, clock, b) ensures IsFull(perMinute, now, b) { StillFull(perMinute, clock, now, b); }
  }

  lemma TouchKeeps(perMinute: nat, s: Shared, kept: Kept, t: ThreadId, key: string, now: real)
    requires SharedOk(perMinute, now, s, kept) && t !in s.pending
    ensures SharedOk(perMinute, now, Next(perMinute, s, Touch(t, key, now)).0, kept)
  {
    hide Level, Burst;
    FreshIsFull(perMinute, now, now);
    FullNotNegative(perMinute, now);
  }

  /** Two full buckets, or the same bucket, give the same answer and are the same afterwards. */
  lemma TakeAgrees(perMinute: nat, a: Bucket, b: Bucket, now: real)
    requires a == b || (IsFull(perMinute, now, a) && IsFull(perMinute, now, b))
    ensures Take(perMinute, a, now) == Take(perMinute, b, now)
  {
  }

  lemma DrawKeeps(perMinute: nat, s: Shared, kept: Kept, t: ThreadId, now: real)
    requires SharedOk(perMinute, now, s, kept) && Legal(now, s, Draw(t, now))
    ensures var (s', d) := Next(perMinute, s, Draw(t, now));
            var (kept', d') := StepKept(perMinute, kept, Ask(s.pending[t].key, now, now));
            SharedOk(perMinute, now, s', kept') && d == d'
  {
    hide Level, Burst, Take, Full;
    var p := s.pending[t];
    var b := s.buckets[p.ref];
    FreshIsFull(perMinute, now, now);
    FullNotNegative(perMinute, now);
    TakeAgrees(perMinute, b, BucketFor(perMinute, kept, p.key, now), now);
    TakeOk(perMinute, b, now);
  }

  lemma SweepKeeps(perMinute: nat, s: Shared, kept: Kept, now: real)
    requires perMinute >= 1 && SharedOk(perMinute, now, s, kept)
    ensures SharedOk(perMinute, now, Next(perMinute, s, SweepCall(now)).0, kept)
  {
    hide Level, Burst;
    var s' := Next(perMinute, s, SweepCall(now)).0;
    forall k | k in kept && k in s.seen && k !in s'.seen ensures IsFull(perMinute, now, kept[k]) {
      IdleIsFull(perMinute, now, Entry(s.buckets[s.seen[k].ref], s.seen[k].last), now);
    }
  }

  lemma NextKeeps(perMinute: nat, clock: real, s: Shared, kept: Kept, c: Call)
    requires perMinute >= 1 && SharedOk(perMinute, clock, s, kept) && Legal(clock, s, c)
    ensures var (s', d) := Next(perMinute, s, c);
            && (c.Draw? ==> SharedOk(perMinute, c.now, s', StepKept(perMinute, kept, AskOf(s, c)[0]).0)
                            && d == StepKept(perMinute, kept, AskOf(s, c)[0]).1)
            && (!c.Draw? ==> SharedOk(perMinute, c.now, s', kept) && d == [])
  {
    hide SharedOk, StepKept;
    LaterOk(perMinute, clock, c.now, s, kept);
    match c
    case Touch(t, key, now) => TouchKeeps(perMinute, s, kept, t, key, now);
    case Draw(t, now) => DrawKeeps(perMinute, s, kept, t, now);
    case SweepCall(now) => SweepKeeps(perMinute, s, kept, now);
  }

  lemma {:induction false} RunAgrees(perMinute: nat, clock: real, s: Shared, kept: Kept, run: seq<Call>)
    requires perMinute >= 1 && SharedOk(perMinute, clock, s, kept) && LegalRun(perMinute, clock, s, run)
    ensures Decisions(perMinute, clock, s, run) == DecisionsKept(perMinute, kept, Asks(perMinute, clock, s, run))
    ensures TimelyRun(clock, Asks(perMinute, clock, s, run))
    decreases |run|
  {
    hide SharedOk, Next, StepKept;
    if run != [] {
      var c := run[0];
      var s' := Next(perMinute, s, c).0;
      NextKeeps(perMinute, clock, s, kept, c);
      var rest := Asks(perMinute, c.now, s', run[1..]);
      if c.Draw? {
        var e := AskOf(s, c)[0];
        RunAgrees(perMinute, c.now, s', StepKept(perMinute, kept, e).0, run[1..]);
        UnfoldKept(perMinute, kept, e, rest);
        TimelyCons(clock, e, rest);
      } else {
        RunAgrees(perMinute, c.now, s', kept, run[1..]);
        assert Asks(perMinute, clock, s, run) == rest && Decisions(perMinute, clock, s, run) == Decisions(perMinute, c.now, s', run[1..]);
        TimelyLater(clock, c.now, rest);
      }
    }
  }

  lemma TimelyLater(clock: real, now: real, es: seq<Event>)
    requires clock <= now && TimelyRun(now, es)
    ensures TimelyRun(clock, es)
  {
  }

  /** However requests and sweeps overlap, each request gets the answer it would get from buckets kept
      for ever; and no window of length T admits more than burst + rate * T requests of one key. */
  lemma ConcurrentEvictionIsUnobservable(perMinute: nat, start: real, run: seq<Call>, key: string, a: real, T: real)
    requires perMinute >= 1 && LegalRun(perMinute, start, START, run) && T >= 0.0
    ensures var es := Asks(perMinute, start, START, run);
            && Decisions(perMinute, start, START, run) == DecisionsKept(perMinute, map[], es)
            && Admitted(perMinute, map[], es, key, a, a + T) as real <= Burst(perMinute) as real + Inflow(perMinute, T)
  {
    hide Decisions, DecisionsKept, Asks, LegalRun, Admitted, Burst, Inflow;
    RunAgrees(perMinute, start, START, map[], run);
    RateBound(perMinute, start, Asks(perMinute, start, START, run), key, a, T);
  }

  // ---- one request at a time ----

  /** The entries of the map with the buckets they hold. */
  function View(s: Shared): (seen: Seen)
    requires forall k :: k in s.seen ==> s.seen[k].ref in s.buckets
  {
    map k | k in s.seen :: Entry(s.buckets[s.seen[k].ref], s.seen[k].last)
  }

  lemma TouchRefs(perMinute: nat, s: Shared, key: string, touched: real)
    requires RefsOk(s)
    ensures RefsOk(Touched(perMinute, s, key, touched))
  {
    hide Full;
  }

  lemma TouchedView(perMinute: nat, s: Shared, key: string, touched: real)
    requires forall k :: k in s.seen ==> s.seen[k].ref in s.buckets && s.seen[k].ref != s.next
    ensures var s1 := Touched(perMinute, s, key, touched);
            && (forall k :: k in s1.seen ==> s1.seen[k].ref in s1.buckets)
            && key in s1.seen && s1.pending == s.pending
            && View(s1) == View(s)[key := Entry(BucketOf(perMinute, View(s), key, touched), touched)]
  {
    hide Full;
  }

  lemma TouchView(perMinute: nat, s: Shared, t: ThreadId, key: string, touched: real)
    requires RefsOk(s)
    ensures var s1 := Next(perMinute, s, Touch(t, key, touched)).0;
            && RefsOk(s1) && key in s1.seen && s1.pending == s.pending[t := Pending(key, s1.seen[key].ref, touched)]
            && View(s1) == View(s)[key := Entry(BucketOf(perMinute, View(s), key, touched), touched)]
  {
    TouchRefs(perMinute, s, key, touched);
    TouchedView(perMinute, s, key, touched);
    hide Touched, BucketOf;
  }

  lemma DrawView(perMinute: nat, s: Shared, t: ThreadId, key: string, asked: real)
    requires RefsOk(s) && t in s.pending && key in s.seen && s.pending[t].ref == s.seen[key].ref
    ensures var (s2, d) := Next(perMinute, s, Draw(t, asked));
            var (b, ok) := Take(perMinute, View(s)[key].bucket, asked);
            && RefsOk(s2) && s2.pending == s.pending - {t} && d == [ok]
            && View(s2) == View(s)[key := Entry(b, View(s)[key].last)]
  {
    hide Take;
    var s2 := Next(perMinute, s, Draw(t, asked)).0;
    assert RefsOk(s2);
    assert View(s2).Keys == View(s).Keys;
  }

  /** A request that nothing interrupts is a request of the sequential limiter, and leaves no trace in flight;
      a sweep is its sweep. */
  lemma UninterruptedIsSequential(perMinute: nat, s: Shared, t: ThreadId, key: string, touched: real, asked: real)
    requires RefsOk(s) && t !in s.pending
    ensures var s1 := Next(perMinute, s, Touch(t, key, touched)).0;
            && t in s1.pending && s1.pending[t].ref in s1.buckets
            && var (s2, d) := Next(perMinute, s1, Draw(t, asked));
               && RefsOk(s2) && s2.pending == s.pending
               && (View(s2), d) == StepSeen(perMinute, View(s), Ask(key, touched, asked))
  {
    hide Next, Take, BucketOf, View;
    TouchView(perMinute, s, t, key, touched);
    var s1 := Next(perMinute, s, Touch(t, key, touched)).0;
    DrawView(perMinute, s1, t, key, asked);
    assert s1.pending - {t} == s.pending;
    var b := Take(perMinute, BucketOf(perMinute, View(s), key, touched), asked).0;
    assert View(s1)[key := Entry(b, touched)] == View(s)[key := Entry(b, touched)];
  }

  lemma SweepIsSequential(perMinute: nat, s: Shared, now: real)
    requires RefsOk(s)
    ensures var s' := Next(perMinute, s, SweepCall(now)).0; RefsOk(s') && s'.pending == s.pending && View(s') == Swept(View(s), now)
  {
  }
}
