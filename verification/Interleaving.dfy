/** Submissions that overlap: every store call is its own step, and any number of handlers are in
    flight at once, also for the same reservation. */
module Interleaving {
  import opened Basics
  import opened Store
  import K = ObjectKey

  type ThreadId = nat

  /** Where a submit handler stands between two store calls. */
  datatype Stage =
    | Loaded(p: Id, res: Reservation)                      // reservation read, owner checked
    | Holding(p: Id, res: Reservation, held: Bytes)      // not yet completed, input open, its size taken
    | Writing(p: Id, sig: Signature, body: Bytes)          // checks passed, object not yet written
    | Creating(p: Id, sig: Signature, body: Bytes)         // object written, record not yet created
    | Marking(p: Id, sig: Signature)                       // record created, reservation not yet marked

  /** The document hash, and the largest document that is verified before it is stored. */
  datatype Env = Env(sha512: Bytes -> string, verify: int)

  datatype System = System(
    reservations: map<Id, Reservation>, signatures: map<Id, Signature>, objects: map<string, Bytes>,
    threads: map<ThreadId, Stage>)

  datatype Call =
    | ReserveCall(p: Id, account: Id, device: Id, originalSha512: string)
    | LoadCall(t: ThreadId, p: Id, sub: Id)
    | CompletedCall(t: ThreadId, held: Bytes)
    | DecideCall(t: ThreadId, appended: Bytes, certificate: Id, serial: string, fingerprint: string, year: nat, month: nat, passes: bool)
    | PutCall(t: ThreadId)
    | CreateCall(t: ThreadId)
    | MarkCall(t: ThreadId)

  const START := System(map[], map[], map[], map[])

  predicate Legal(s: System, c: Call) {
    match c
    case ReserveCall(p, _, device, _) => p !in s.reservations && p != "" && device != ""
    case LoadCall(t, _, _) => t !in s.threads
    case CompletedCall(t, _) => t in s.threads && s.threads[t].Loaded?
    case DecideCall(t, _, _, _, _, _, _, _) => t in s.threads && s.threads[t].Holding?
    case PutCall(t) => t in s.threads && s.threads[t].Writing?
    case CreateCall(t) => t in s.threads && s.threads[t].Creating?
    case MarkCall(t) => t in s.threads && s.threads[t].Marking?
  }

  function Next(env: Env, s: System, c: Call): (s': System)
    requires Legal(s, c)
  {
    match c
    case ReserveCall(p, account, device, sha) =>
      s.(reservations := s.reservations[p := Reservation(account, device, sha, ReservationReserved)])
    case LoadCall(t, p, sub) =>
      if p in s.reservations && s.reservations[p].account == sub
      then s.(threads := s.threads[t := Loaded(p, s.reservations[p])]) else s
    case CompletedCall(t, held) =>
      var at := s.threads[t];
      if at.res.status == ReservationAccepted && at.p in s.signatures
      then s.(threads := s.threads - {t})                                        // the record is returned
      else s.(threads := s.threads[t := Holding(at.p, at.res, held)])
    case DecideCall(t, appended, certificate, serial, fingerprint, year, month, passes) =>
      var at := s.threads[t];
      var body := at.held + appended;
      var key := K.Key(year, month, at.p);
      if |at.held| > env.verify then
        var sig := Signature(at.res.account, at.res.device, "", "", "", at.res.originalSha512,
                             env.sha512(body), key, |at.held|, VerificationStoredOnly);
        s.(threads := s.threads[t := Writing(at.p, sig, body)])
      else if at.p in s.signatures || !passes then s.(threads := s.threads - {t})
      else
        var sig := Signature(at.res.account, at.res.device, certificate, serial, fingerprint, at.res.originalSha512,
                             env.sha512(body), key, |body|, VerificationAccepted);
        s.(threads := s.threads[t := Writing(at.p, sig, body)])
    case PutCall(t) =>
      var at := s.threads[t];
      s.(objects := s.objects[at.sig.objectKey := at.body], threads := s.threads[t := Creating(at.p, at.sig, at.body)])
    case CreateCall(t) =>
      var at := s.threads[t];
      if at.p in s.signatures then s.(threads := s.threads - {t})                // conflict
      else s.(signatures := s.signatures[at.p := at.sig], threads := s.threads[t := Marking(at.p, at.sig)])
    case MarkCall(t) =>
      var at := s.threads[t];
      s.(reservations := if at.p in s.reservations
                         then s.reservations[at.p := s.reservations[at.p].(status := ReservationAccepted)] else s.reservations,
         threads := s.threads - {t})
  }

  predicate LegalRun(env: Env, s: System, run: seq<Call>)
    decreases |run|
  {
    run == [] || (Legal(s, run[0]) && LegalRun(env, Next(env, s, run[0]), run[1..]))
  }

  function After(env: Env, s: System, run: seq<Call>): (s': System)
    requires LegalRun(env, s, run)
    decreases |run|
  {
    if run == [] then s else After(env, Next(env, s, run[0]), run[1..])
  }

  /** When a handler goes on after a store call, and when it ends: it loads only its own account's
      reservation, returns the record of a completed one, refuses a verifiable document that is recorded
      already or does not pass, and gives up when another handler recorded first. */
  lemma GoesOnIff(env: Env, s: System, c: Call)
    requires Legal(s, c) && !c.ReserveCall?
    ensures var on := c.t in Next(env, s, c).threads;
            match c
            case LoadCall(_, p, sub) => on <==> p in s.reservations && s.reservations[p].account == sub
            case CompletedCall(t, _) => on <==> !(s.threads[t].res.status == ReservationAccepted && s.threads[t].p in s.signatures)
            case DecideCall(t, _, _, _, _, _, _, passes) =>
              on <==> |s.threads[t].held| > env.verify || (passes && s.threads[t].p !in s.signatures)
            case PutCall(t) => on && Next(env, s, c).objects == s.objects[s.threads[t].sig.objectKey := s.threads[t].body]
            case CreateCall(t) => on <==> s.threads[t].p !in s.signatures
            case MarkCall(t) =>
              && !on
              && (s.threads[t].p in s.reservations ==> Next(env, s, c).reservations[s.threads[t].p].status == ReservationAccepted)
            case _ => true
  {
    hide K.Key;
  }

  // ---- what holds under every interleaving ----

  /** A handler works on an existing reservation, carries its account and device, and hashes the very
      bytes it writes under a key of that reservation. */
  predicate StageOk(env: Env, s: System, at: Stage) {
    && at.p in s.reservations
    && (at.Loaded? || at.Holding? ==>
          && s.reservations[at.p].account == at.res.account && s.reservations[at.p].device == at.res.device
          && s.reservations[at.p].originalSha512 == at.res.originalSha512
          && (at.res.status == ReservationAccepted ==> at.p in s.signatures))
    && (at.Writing? || at.Creating? || at.Marking? ==> OwnRecord(s, at.p, at.sig))
    && (at.Writing? || at.Creating? ==> at.sig.signedSha512 == env.sha512(at.body))
    && (at.Creating? ==> at.sig.objectKey in s.objects)
    && (at.Marking? ==> at.p in s.signatures && s.signatures[at.p] == at.sig)
  }

  predicate OwnRecord(s: System, p: Id, sig: Signature) {
    && p in s.reservations && s.reservations[p].account == sig.account && s.reservations[p].device == sig.device
    && s.reservations[p].originalSha512 == sig.originalSha512
    && K.Owner(sig.objectKey) == p
  }

  ghost predicate SystemOk(env: Env, s: System) {
    && (forall t :: t in s.threads ==> StageOk(env, s, s.threads[t]))
    && (forall p :: p in s.signatures ==> OwnRecord(s, p, s.signatures[p]) && s.signatures[p].objectKey in s.objects)
    && (forall p :: p in s.reservations && s.reservations[p].status == ReservationAccepted ==> p in s.signatures)
  }

  /** Records are never lost or changed, reservations never re-owned or un-marked. */
  ghost predicate OnlyAdds(a: System, b: System) {
    && (forall p :: p in a.signatures ==> p in b.signatures && b.signatures[p] == a.signatures[p])
    && (forall p :: p in a.reservations ==>
          && p in b.reservations && b.reservations[p].(status := a.reservations[p].status) == a.reservations[p]
          && (a.reservations[p].status == ReservationAccepted ==> b.reservations[p].status == ReservationAccepted))
    && a.objects.Keys <= b.objects.Keys
  }

  lemma NextAdds(env: Env, s: System, c: Call)
    requires Legal(s, c)
    ensures OnlyAdds(s, Next(env, s, c))
  {
  }

  lemma StageSurvives(env: Env, a: System, b: System, at: Stage)
    requires StageOk(env, a, at) && OnlyAdds(a, b)
    ensures StageOk(env, b, at)
  {
  }

  lemma OwnStageOk(env: Env, s: System, c: Call)
    requires SystemOk(env, s) && Legal(s, c) && !c.ReserveCall?
    ensures var s' := Next(env, s, c); c.t in s'.threads ==> StageOk(env, s', s'.threads[c.t])
  {
    if c.DecideCall? { K.OwnerOfKey(c.year, c.month, s.threads[c.t].p); }
    hide K.Owner, K.Key;
    if !c.LoadCall? { assert StageOk(env, s, s.threads[c.t]); }
  }

  lemma RowsOk(env: Env, s: System, c: Call)
    requires SystemOk(env, s) && Legal(s, c)
    ensures var s' := Next(env, s, c);
            && (forall p :: p in s'.signatures ==> OwnRecord(s', p, s'.signatures[p]) && s'.signatures[p].objectKey in s'.objects)
            && (forall p :: p in s'.reservations && s'.reservations[p].status == ReservationAccepted ==> p in s'.signatures)
  {
    hide K.Owner, K.Key;
    if !c.ReserveCall? && !c.LoadCall? { assert StageOk(env, s, s.threads[c.t]); }
  }

  lemma NextKeeps(env: Env, s: System, c: Call)
    requires SystemOk(env, s) && Legal(s, c)
    ensures SystemOk(env, Next(env, s, c)) && OnlyAdds(s, Next(env, s, c))
  {
    hide K.Owner, K.Key, StageOk, OwnRecord, OnlyAdds;
    var s' := Next(env, s, c);
    NextAdds(env, s, c);
    RowsOk(env, s, c);
    if !c.ReserveCall? { OwnStageOk(env, s, c); }
    forall t | t in s'.threads ensures StageOk(env, s', s'.threads[t]) {
      if c.ReserveCall? || t != c.t {
        assert s'.threads[t] == s.threads[t];
        StageSurvives(env, s, s', s.threads[t]);
      }
    }
  }

  lemma {:induction false} RunKeeps(env: Env, s: System, run: seq<Call>)
    requires SystemOk(env, s) && LegalRun(env, s, run)
    ensures SystemOk(env, After(env, s, run)) && OnlyAdds(s, After(env, s, run))
    decreases |run|
  {
    hide SystemOk, Next;
    if run != [] {
      NextKeeps(env, s, run[0]);
      RunKeeps(env, Next(env, s, run[0]), run[1..]);
    }
  }

  /** However handlers interleave: a record, once created, is the only one for its public id and
      never changes; a reservation marked accepted has its record; the record names the reservation's
      account and device, and an object written for that same public id. */
  lemma OneRecordPerReservation(env: Env, before: seq<Call>, after: seq<Call>)
    requires LegalRun(env, START, before) && LegalRun(env, After(env, START, before), after)
    ensures var s := After(env, START, before);
            var s' := After(env, s, after);
            && (forall p :: p in s.signatures ==> p in s'.signatures && s'.signatures[p] == s.signatures[p])
            && (forall p :: p in s'.reservations && s'.reservations[p].status == ReservationAccepted ==> p in s'.signatures)
            && (forall p :: p in s'.signatures ==>
                  OwnRecord(s', p, s'.signatures[p]) && s'.signatures[p].objectKey in s'.objects)
  {
    RunKeeps(env, START, before);
    RunKeeps(env, After(env, START, before), after);
  }

  // ---- hash agreement ----

  /** Every record's hash is that of the bytes under its key. */
  ghost predicate Agrees(env: Env, s: System) {
    forall p :: p in s.signatures ==>
      s.signatures[p].objectKey in s.objects && env.sha512(s.objects[s.signatures[p].objectKey]) == s.signatures[p].signedSha512
  }

  /** A late writer replaces a recorded object, or a record is created over an object that another
      writer replaced in the meantime, with a different hash. */
  predicate Overlaps(env: Env, s: System, c: Call)
    requires Legal(s, c)
  {
    || (c.PutCall? &&
        var at := s.threads[c.t];
        at.p in s.signatures && s.signatures[at.p].objectKey == at.sig.objectKey && env.sha512(at.body) != s.signatures[at.p].signedSha512)
    || (c.CreateCall? &&
        var at := s.threads[c.t];
        at.p !in s.signatures && at.sig.objectKey in s.objects && env.sha512(s.objects[at.sig.objectKey]) != at.sig.signedSha512)
  }

  /** Step by step, agreement survives exactly when the step is not one of those two. */
  lemma AgreementIff(env: Env, s: System, c: Call)
    requires SystemOk(env, s) && Legal(s, c) && Agrees(env, s)
    ensures Agrees(env, Next(env, s, c)) <==> !Overlaps(env, s, c)
  {
    hide K.Owner, K.Key;
    var s' := Next(env, s, c);
    if Overlaps(env, s, c) {
      var p := s.threads[c.t].p;
      assert p in s'.signatures && env.sha512(s'.objects[s'.signatures[p].objectKey]) != s'.signatures[p].signedSha512;
    } else if c.PutCall? {
      var at := s.threads[c.t];
      forall p | p in s.signatures && s.signatures[p].objectKey == at.sig.objectKey
        ensures env.sha512(at.body) == s.signatures[p].signedSha512
      {
        assert p == K.Owner(s.signatures[p].objectKey) == at.p;
      }
    }
  }

  /** No other submission of the reservation is in flight when one starts. */
  predicate StartsAlone(s: System, c: Call) {
    c.LoadCall? ==> forall t :: t in s.threads ==> s.threads[t].p != c.p
  }

  /** No two handlers share a reservation. */
  ghost predicate Exclusive(s: System) {
    forall t, u :: t in s.threads && u in s.threads && s.threads[t].p == s.threads[u].p ==> t == u
  }

  predicate IsMarking(s: System, t: ThreadId, p: Id) {
    t in s.threads && s.threads[t].Marking? && s.threads[t].p == p
  }

  /** A record whose reservation is not marked yet has a handler about to mark it. */
  ghost predicate MarkPending(s: System) {
    forall p :: p in s.signatures && p in s.reservations && s.reservations[p].status == ReservationReserved ==>
      exists t :: IsMarking(s, t, p)
  }

  /** A handler past the completion check has no record yet, and the object it wrote is still there. */
  predicate OpenStage(s: System, at: Stage) {
    && (at.Loaded? ==> (at.res.status == ReservationAccepted <==> at.p in s.signatures))
    && (at.Holding? || at.Writing? || at.Creating? ==> at.p !in s.signatures)
    && (at.Creating? ==> at.sig.objectKey in s.objects && s.objects[at.sig.objectKey] == at.body)
  }

  /** What holds when the submissions of one reservation never overlap. */
  ghost predicate OneAtATime(s: System) {
    && Exclusive(s) && MarkPending(s)
    && forall t :: t in s.threads ==> OpenStage(s, s.threads[t])
  }

  lemma ExclusiveKept(env: Env, s: System, c: Call)
    requires Legal(s, c) && Exclusive(s) && StartsAlone(s, c)
    ensures Exclusive(Next(env, s, c))
  {
    hide K.Owner, K.Key;
  }

  /** A marker stays until it has marked. */
  lemma MarkerStays(env: Env, s: System, c: Call, t: ThreadId, p: Id)
    requires Legal(s, c) && IsMarking(s, t, p) && p in s.reservations
    ensures IsMarking(Next(env, s, c), t, p) || Next(env, s, c).reservations[p].status == ReservationAccepted
  {
    hide K.Owner, K.Key;
  }

  lemma MarkPendingKept(env: Env, s: System, c: Call)
    requires SystemOk(env, s) && Legal(s, c) && MarkPending(s)
    ensures MarkPending(Next(env, s, c))
  {
    hide K.Owner, K.Key, StageOk;
    var s' := Next(env, s, c);
    forall p | p in s'.signatures && p in s'.reservations && s'.reservations[p].status == ReservationReserved
      ensures exists t :: IsMarking(s', t, p)
    {
      if p in s.signatures {
        assert OwnRecord(s, p, s.signatures[p]);
        var t :| IsMarking(s, t, p);
        MarkerStays(env, s, c, t, p);
      } else {
        assert IsMarking(s', c.t, p);
      }
    }
  }

  lemma OwnStageOpen(env: Env, s: System, c: Call)
    requires SystemOk(env, s) && Legal(s, c) && StartsAlone(s, c) && OneAtATime(s) && !c.ReserveCall?
    ensures var s' := Next(env, s, c); c.t in s'.threads ==> OpenStage(s', s'.threads[c.t])
  {
    hide K.Owner, K.Key;
    if !c.LoadCall? { assert OpenStage(s, s.threads[c.t]); }
  }

  lemma OtherStageOpen(env: Env, s: System, c: Call, t: ThreadId)
    requires SystemOk(env, s) && Legal(s, c) && Exclusive(s)
    requires t in s.threads && (c.ReserveCall? || t != c.t) && OpenStage(s, s.threads[t])
    ensures OpenStage(Next(env, s, c), s.threads[t])
  {
    hide K.Owner, K.Key;
    assert StageOk(env, s, s.threads[t]);
    if c.PutCall? || c.CreateCall? { assert StageOk(env, s, s.threads[c.t]); }
  }

  lemma AloneKeeps(env: Env, s: System, c: Call)
    requires SystemOk(env, s) && OneAtATime(s) && Legal(s, c) && StartsAlone(s, c)
    ensures OneAtATime(Next(env, s, c)) && !Overlaps(env, s, c)
  {
    hide K.Owner, K.Key, StageOk, OwnRecord, Exclusive, MarkPending;
    var s' := Next(env, s, c);
    ExclusiveKept(env, s, c);
    MarkPendingKept(env, s, c);
    if !c.ReserveCall? { OwnStageOpen(env, s, c); }
    forall t | t in s'.threads ensures OpenStage(s', s'.threads[t]) {
      if c.ReserveCall? || t != c.t {
        assert s'.threads[t] == s.threads[t];
        OtherStageOpen(env, s, c, t);
      }
    }
    if c.PutCall? || c.CreateCall? {
      assert OpenStage(s, s.threads[c.t]) && StageOk(env, s, s.threads[c.t]);
      CarriedHash(env, s, s.threads[c.t]);
    }
  }

  lemma CarriedHash(env: Env, s: System, at: Stage)
    requires StageOk(env, s, at) && (at.Writing? || at.Creating?)
    ensures at.sig.signedSha512 == env.sha512(at.body)
  {
  }

  predicate AloneRun(env: Env, s: System, run: seq<Call>)
    requires LegalRun(env, s, run)
    decreases |run|
  {
    run == [] || (StartsAlone(s, run[0]) && AloneRun(env, Next(env, s, run[0]), run[1..]))
  }

  lemma {:induction false} AloneRunAgrees(env: Env, s: System, run: seq<Call>)
    requires LegalRun(env, s, run) && AloneRun(env, s, run)
    requires SystemOk(env, s) && OneAtATime(s) && Agrees(env, s)
    ensures Agrees(env, After(env, s, run))
    decreases |run|
  {
    hide SystemOk, Next, OneAtATime, Agrees, Overlaps, StartsAlone;
    if run != [] {
      NextKeeps(env, s, run[0]);
      AloneKeeps(env, s, run[0]);
      AgreementIff(env, s, run[0]);
      AloneRunAgrees(env, Next(env, s, run[0]), run[1..]);
    }
  }

  /** If submissions of one reservation never overlap, each record keeps matching its object, however
      submissions of different reservations interleave. */
  lemma NonOverlappingSubmissionsAgree(env: Env, run: seq<Call>)
    requires LegalRun(env, START, run) && AloneRun(env, START, run)
    ensures Agrees(env, After(env, START, run))
  {
    AloneRunAgrees(env, START, run);
  }

  /** Two handlers of one reservation, both past their checks and about to write different documents. */
  ghost predicate BothWriting(env: Env, s: System, p: Id, a: Bytes, b: Bytes) {
    && p !in s.signatures && 1 in s.threads && 2 in s.threads && s.threads[1].Writing? && s.threads[2].Writing?
    && s.threads[1].p == p && s.threads[2].p == p && s.threads[1].sig.objectKey == s.threads[2].sig.objectKey
    && s.threads[1].body == a && s.threads[2].body == b && s.threads[1].sig.signedSha512 == env.sha512(a)
  }

  /** Taking one document over the verify limit through load, completion check and decision, while
      `appended` arrives at its upload. */
  lemma ReachWriting(env: Env, s: System, t: ThreadId, p: Id, held: Bytes, appended: Bytes) returns (run: seq<Call>)
    requires p in s.reservations && s.reservations[p].status == ReservationReserved && t !in s.threads
    requires env.verify < |held|
    ensures LegalRun(env, s, run)
    ensures var s' := After(env, s, run);
            && s'.reservations == s.reservations && s'.signatures == s.signatures
            && t in s'.threads && s'.threads == s.threads[t := s'.threads[t]]
            && var at := s'.threads[t];
               && at.Writing? && at.p == p && at.body == held + appended && at.sig.size == |held|
               && at.sig.signedSha512 == env.sha512(at.body) && at.sig.objectKey == K.Key(2026, 1, p)
  {
    hide K.Key, K.Owner;
    var c1, c2 := LoadCall(t, p, s.reservations[p].account), CompletedCall(t, held);
    var c3 := DecideCall(t, appended, "", "", "", 2026, 1, true);
    var s1 := Next(env, s, c1);
    var s2 := Next(env, s1, c2);
    PrependLegal(env, s2, c3, []);
    run := PrependTwo(env, s, c1, c2, [c3] + []);
  }

  /** The second handler writes after the first has recorded. */
  lemma LateWriteDisagrees(env: Env, s: System, p: Id, a: Bytes, b: Bytes) returns (run: seq<Call>)
    requires BothWriting(env, s, p, a, b) && env.sha512(a) != env.sha512(b)
    ensures LegalRun(env, s, run) && !Agrees(env, After(env, s, run))
  {
    var s1 := Next(env, s, PutCall(1));
    var s2 := Next(env, s1, CreateCall(1));
    var s3 := Next(env, s2, PutCall(2));
    assert p in s3.signatures && s3.objects[s3.signatures[p].objectKey] == b;
    PrependLegal(env, s2, PutCall(2), []);
    run := PrependTwo(env, s, PutCall(1), CreateCall(1), [PutCall(2)] + []);
  }

  /** If they do overlap it can fail, whatever the two documents are, as long as both are too large to
      be verified. */
  lemma OverlappingSubmissionsDisagree(env: Env, p: Id, account: Id, device: Id, a: Bytes, b: Bytes) returns (run: seq<Call>)
    requires p != "" && device != "" && env.verify < |a| && env.verify < |b| && env.sha512(a) != env.sha512(b)
    ensures LegalRun(env, START, run) && !Agrees(env, After(env, START, run))
  {
    hide K.Key, K.Owner, Agrees;
    assert a + [] == a && b + [] == b;
    var c0 := ReserveCall(p, account, device, "");
    var s0 := Next(env, START, c0);
    var r1 := ReachWriting(env, s0, 1, p, a, []);
    var s1 := After(env, s0, r1);
    var r2 := ReachWriting(env, s1, 2, p, b, []);
    var s2 := After(env, s1, r2);
    var r3 := LateWriteDisagrees(env, s2, p, a, b);
    Concatenated(env, s1, r2, r3);
    Concatenated(env, s0, r1, r2 + r3);
    PrependLegal(env, START, c0, r1 + (r2 + r3));
    run := [c0] + (r1 + (r2 + r3));
  }

  // ---- a document that grows while it is submitted ----

  /** The size is taken when the input is opened, the bytes are read later.  The record's size is that
      of the bytes exactly when the document was within the verify limit at opening or nothing was
      appended; and the tier is the one the bytes call for unless they outgrew the limit meanwhile. */
  lemma DecidedRecordIff(env: Env, s: System, c: Call)
    requires c.DecideCall? && Legal(s, c) && c.t in Next(env, s, c).threads
    ensures var held, at := s.threads[c.t].held, Next(env, s, c).threads[c.t];
            && at.Writing? && at.body == held + c.appended
            && (at.sig.size == |at.body| <==> |held| <= env.verify || c.appended == [])
            && ((at.sig.verification == VerificationAccepted <==> |at.body| <= env.verify)
                <==> !(|held| <= env.verify < |at.body|))
  {
    hide K.Key;
  }

  /** Every record's size is that of the bytes under its key. */
  ghost predicate SizesAgree(s: System) {
    forall p :: p in s.signatures ==>
      s.signatures[p].objectKey in s.objects && |s.objects[s.signatures[p].objectKey]| == s.signatures[p].size
  }

  /** A chunk that arrives after its upload was opened is stored and
      hashed, and the record has the old size. */
  lemma GrowingUploadMisrecorded(env: Env, p: Id, account: Id, device: Id, held: Bytes, appended: Bytes) returns (run: seq<Call>)
    requires p != "" && device != "" && env.verify < |held| && appended != []
    ensures LegalRun(env, START, run) && !SizesAgree(After(env, START, run))
  {
    hide K.Key, K.Owner;
    var c0 := ReserveCall(p, account, device, "");
    var s0 := Next(env, START, c0);
    var r1 := ReachWriting(env, s0, 1, p, held, appended);
    var s1 := After(env, s0, r1);
    var s2 := Next(env, s1, PutCall(1));
    var s3 := Next(env, s2, CreateCall(1));
    assert p in s3.signatures && s3.objects[s3.signatures[p].objectKey] == held + appended;
    var r2 := PrependTwo(env, s1, PutCall(1), CreateCall(1), []);
    Concatenated(env, s0, r1, r2);
    PrependLegal(env, START, c0, r1 + r2);
    run := [c0] + (r1 + r2);
  }

  lemma {:induction false} Concatenated(env: Env, s: System, a: seq<Call>, b: seq<Call>)
    requires LegalRun(env, s, a) && LegalRun(env, After(env, s, a), b)
    ensures LegalRun(env, s, a + b) && After(env, s, a + b) == After(env, After(env, s, a), b)
    decreases |a|
  {
    hide Next, Legal;
    if a == [] {
      assert a + b == b;
    } else {
      Concatenated(env, Next(env, s, a[0]), a[1..], b);
      assert (a + b)[1..] == a[1..] + b;
    }
  }

  lemma PrependLegal(env: Env, s: System, c: Call, rest: seq<Call>)
    requires Legal(s, c) && LegalRun(env, Next(env, s, c), rest)
    ensures LegalRun(env, s, [c] + rest) && After(env, s, [c] + rest) == After(env, Next(env, s, c), rest)
  {
    hide Next, Legal;
    assert ([c] + rest)[1..] == rest;
  }

  lemma PrependTwo(env: Env, s: System, c: Call, d: Call, rest: seq<Call>) returns (run: seq<Call>)
    requires Legal(s, c) && Legal(Next(env, s, c), d) && LegalRun(env, Next(env, Next(env, s, c), d), rest)
    ensures LegalRun(env, s, run) && After(env, s, run) == After(env, Next(env, Next(env, s, c), d), rest)
  {
    hide Next, Legal;
    PrependLegal(env, Next(env, s, c), d, rest);
    PrependLegal(env, s, c, [d] + rest);
    run := [c] + ([d] + rest);
  }
}
