/** What every run of the receiver guarantees. */
module ReceiverTheorems {
  import opened Basics
  import opened Pki
  import opened Store
  import opened Receiver
  import opened ReceiverInvariant
  import Hex
  import CA = CaLedger
  import V = Verification
  import U = Uploads
  import K = ObjectKey
  import Tiers

  // ---- runs ----

  /** An empty store next to an existing CA. */
  ghost predicate Initial(s: State) {
    s.db == EMPTY_DB && CA.LedgerOk(s.ledger) && s.uploads == U.EMPTY
  }

  ghost predicate LegalRun(w: World, cfg: Tiers.Limits, s: State, run: seq<Event>)
    requires CA.LedgerOk(s.ledger)
    decreases |run|
  {
    run == [] || (Legal(s, run[0]) && LegalRun(w, cfg, Step(w, cfg, s, run[0]).0, run[1..]))
  }

  ghost function After(w: World, cfg: Tiers.Limits, s: State, run: seq<Event>): (s': State)
    requires CA.LedgerOk(s.ledger) && LegalRun(w, cfg, s, run)
    decreases |run|
  {
    if run == [] then s else After(w, cfg, Step(w, cfg, s, run[0]).0, run[1..])
  }

  lemma InitialInv(w: World, cfg: Tiers.Limits, s: State)
    requires Initial(s)
    ensures Inv(w, cfg, s)
  {
  }

  lemma {:induction false} RunKeeps(w: World, cfg: Tiers.Limits, s: State, run: seq<Event>)
    requires Inv(w, cfg, s) && LegalRun(w, cfg, s, run)
    ensures Inv(w, cfg, After(w, cfg, s, run)) && Grows(s.db, After(w, cfg, s, run).db)
    decreases |run|
  {
    hide DbOk, Grows, Step, U.SessionsOk;
    if run == [] {
      GrowsReflexive(s.db);
    } else {
      var s1 := Step(w, cfg, s, run[0]).0;
      StepKeeps(w, cfg, s, run[0]);
      RunKeeps(w, cfg, s1, run[1..]);
      GrowsTransitive(s.db, s1.db, After(w, cfg, s, run).db);
    }
  }

  // ---- who signed what ----

  /** A certificate found in a document and one issued to the server, with the same SHA-256
      fingerprint, hold the same key. */
  ghost predicate FingerprintsIdentifyKeys(w: World) {
    forall pem, pdf, at, i: nat {:trigger w.parseCertificate(pem), w.parsePdf(pdf, at).sigs[i]} ::
      && w.parseCertificate(pem).Some?
      && w.parsePdf(pdf, at).Signatures? && i < |w.parsePdf(pdf, at).sigs| && w.parsePdf(pdf, at).sigs[i].certificate.Some?
      && w.parseCertificate(pem).value.fingerprint == w.parsePdf(pdf, at).sigs[i].certificate.value.fingerprint
      ==> w.parseCertificate(pem).value.key == w.parsePdf(pdf, at).sigs[i].certificate.value.key
  }

  /** In every reachable state, a record marked accepted has a reservation of the same account,
      device and original hash, on a device of that account; its certificate is stored with the recorded serial and
      fingerprint for that account and device, and holds the key of the CSR enrolled by them; and the
      stored document carries exactly one signature, made with that certificate for this reservation. */
  lemma AcceptedSignaturesTrace(w: World, cfg: Tiers.Limits, s0: State, run: seq<Event>, p: Id)
    requires Initial(s0) && LegalRun(w, cfg, s0, run)
    requires var db := After(w, cfg, s0, run).db; p in db.signatures && db.signatures[p].verification == VerificationAccepted
    ensures var db := After(w, cfg, s0, run).db;
            var sig := db.signatures[p];
            && p in db.reservations
            && db.reservations[p].account == sig.account && db.reservations[p].device == sig.device
            && db.reservations[p].originalSha512 == sig.originalSha512
            && OwnsDevice(db, sig.account, sig.device)
            && CertificateRecorded(db, sig)
            && CertificateBound(w, db, db.certificates[sig.certificate])
            && sig.objectKey in db.objects
            && exists at :: SoleSigner(w, db.objects[sig.objectKey], at, p, sig.serial, sig.fingerprint)
  {
    InitialInv(w, cfg, s0);
    RunKeeps(w, cfg, s0, run);
  }

  /** The key that signed an accepted document is the key its account and device enrolled. */
  lemma SignedByEnrolledKey(w: World, cfg: Tiers.Limits, s0: State, run: seq<Event>, p: Id)
    requires Initial(s0) && LegalRun(w, cfg, s0, run)
    requires var db := After(w, cfg, s0, run).db; p in db.signatures && db.signatures[p].verification == VerificationAccepted
    requires FingerprintsIdentifyKeys(w)
    ensures var db := After(w, cfg, s0, run).db;
            var sig := db.signatures[p];
            exists at, e ::
              && sig.objectKey in db.objects && SoleSigner(w, db.objects[sig.objectKey], at, p, sig.serial, sig.fingerprint)
              && e in db.enrollments && db.enrollments[e].account == sig.account && db.enrollments[e].device == sig.device
              && w.parseCsr(db.enrollments[e].csr) == Some(w.parsePdf(db.objects[sig.objectKey], at).sigs[0].certificate.value.key)
  {
    AcceptedSignaturesTrace(w, cfg, s0, run, p);
    var db := After(w, cfg, s0, run).db;
    var sig := db.signatures[p];
    var at :| SoleSigner(w, db.objects[sig.objectKey], at, p, sig.serial, sig.fingerprint);
    var cert := db.certificates[sig.certificate];
    var signer := w.parsePdf(db.objects[sig.objectKey], at).sigs[0].certificate.value;
    assert w.parseCertificate(cert.pem).value.key == signer.key;
    assert cert.enrollment in db.enrollments;
  }

  // ---- what is stored ----

  /** No upload copy of the run failed on the byte over the cap. */
  ghost predicate NoOverCapFailure(w: World, cfg: Tiers.Limits, s: State, run: seq<Event>)
    requires CA.LedgerOk(s.ledger) && LegalRun(w, cfg, s, run)
    decreases |run|
  {
    run == [] || (!OverCapFailure(cfg, s, run[0]) && NoOverCapFailure(w, cfg, Step(w, cfg, s, run[0]).0, run[1..]))
  }

  predicate OverCapFailure(cfg: Tiers.Limits, s: State, e: Event) {
    e.UploadChunk? && U.Gettable(s.uploads, e.id, e.sub) && U.FailsOverCap(cfg.upload, s.uploads, e.id, e.offset, e.delivery)
  }

  ghost predicate Capped(cfg: Tiers.Limits, s: State) {
    && U.WithinCap(cfg.upload, s.uploads)
    && forall p :: p in s.db.signatures ==> s.db.signatures[p].size <= cfg.upload || s.db.signatures[p].size == 0
  }

  lemma RecordKeepsCap(cfg: Tiers.Limits, s: State, p: Id, key: string, body: Bytes, sig: Signature, input: Input)
    requires Capped(cfg, s) && p in s.db.reservations && (sig.size <= cfg.upload || sig.size == 0)
    ensures Capped(cfg, Record(s, p, key, body, sig, input).0)
  {
  }

  lemma SubmitKeepsCap(w: World, cfg: Tiers.Limits, s: State, sub: Id, p: Id, input: Input, year: nat, month: nat, at: Time, index: map<string, Id>)
    requires Capped(cfg, s) && U.SessionsOk(cfg.upload, s.uploads)
    ensures Capped(cfg, Submitting(w, cfg, s, sub, p, input, year, month, at, index).0)
  {
    hide StrictVerify, K.Key, Record, Capped;
    if p in s.db.reservations && s.db.reservations[p].account == sub {
      var res := s.db.reservations[p];
      var got := SignedInput(cfg, s.uploads, sub, input);
      if got.Some? {
        var (body, size) := got.value;
        InputWithinCap(cfg, s, sub, input);
        var key := K.Key(year, month, p);
        var v := StrictVerify(w, s, p, res, body, at, index);
        if v.Some? {
          RecordKeepsCap(cfg, s, p, key, body,
            Signature(res.account, res.device, v.value.certificate, v.value.serial, v.value.fingerprint, res.originalSha512,
                      w.sha512(body), key, |body|, VerificationAccepted), input);
        }
        RecordKeepsCap(cfg, s, p, key, body,
          Signature(res.account, res.device, "", "", "", res.originalSha512, w.sha512(body), key, size, VerificationStoredOnly), input);
      }
    }
  }

  lemma InputWithinCap(cfg: Tiers.Limits, s: State, sub: Id, input: Input)
    requires Capped(cfg, s) && U.SessionsOk(cfg.upload, s.uploads) && SignedInput(cfg, s.uploads, sub, input).Some?
    ensures var (body, size) := SignedInput(cfg, s.uploads, sub, input).value; size == |body| && (size <= cfg.upload || size == 0)
  {
  }

  /** Apart from submissions, no step touches the records; and only signing steps touch uploads. */
  lemma StepFrame(w: World, cfg: Tiers.Limits, s: State, e: Event)
    requires CA.LedgerOk(s.ledger) && Legal(s, e) && !e.Submit?
    ensures Step(w, cfg, s, e).0.db.signatures == s.db.signatures
    ensures OnAccounts(e) || OnEnrolment(e) ==> Step(w, cfg, s, e).0.uploads == s.uploads
  {
    hide StepAccounts, StepEnrolment, StepSigning, CA.LedgerOk, Legal;
    if OnAccounts(e) { AccountsFrame(s, e); } else if OnEnrolment(e) { EnrolmentFrame(w, s, e); } else { SigningFrame(w, cfg, s, e); }
  }

  lemma StepKeepsCap(w: World, cfg: Tiers.Limits, s: State, e: Event)
    requires CA.LedgerOk(s.ledger) && U.SessionsOk(cfg.upload, s.uploads) && Legal(s, e) && Capped(cfg, s)
    requires !OverCapFailure(cfg, s, e)
    ensures Capped(cfg, Step(w, cfg, s, e).0)
  {
    hide StepAccounts, StepEnrolment, Submitting, CA.LedgerOk, Legal;
    if e.Submit? {
      SubmitKeepsCap(w, cfg, s, e.sub, e.publicId, e.input, e.year, e.month, e.at, e.index);
    } else {
      StepFrame(w, cfg, s, e);
      if e.UploadChunk? {
        U.ChunkWithinCapIff(cfg.upload, s.uploads, e.id, e.sub, e.offset, e.delivery, e.now);
      }
    }
  }

  /** From a state where all sessions and records are within the limit, a step leaves the limit exactly
      when it is a chunk whose copy fails on the byte over the cap. */
  lemma StepCappedIff(w: World, cfg: Tiers.Limits, s: State, e: Event)
    requires CA.LedgerOk(s.ledger) && U.SessionsOk(cfg.upload, s.uploads) && Legal(s, e) && Capped(cfg, s)
    ensures Capped(cfg, Step(w, cfg, s, e).0) <==> !OverCapFailure(cfg, s, e)
  {
    if OverCapFailure(cfg, s, e) {
      U.ChunkWithinCapIff(cfg.upload, s.uploads, e.id, e.sub, e.offset, e.delivery, e.now);
    } else {
      StepKeepsCap(w, cfg, s, e);
    }
  }

  /** Every state of the run has all sessions and records within the limit. */
  ghost predicate AlwaysCapped(w: World, cfg: Tiers.Limits, s: State, run: seq<Event>)
    requires CA.LedgerOk(s.ledger) && LegalRun(w, cfg, s, run)
    decreases |run|
  {
    Capped(cfg, s) && (run == [] || AlwaysCapped(w, cfg, Step(w, cfg, s, run[0]).0, run[1..]))
  }

  /** A run stays within the limit throughout exactly when none of its copies fails over the cap. */
  lemma {:induction false} AlwaysCappedIff(w: World, cfg: Tiers.Limits, s: State, run: seq<Event>)
    requires Inv(w, cfg, s) && Capped(cfg, s) && LegalRun(w, cfg, s, run)
    ensures AlwaysCapped(w, cfg, s, run) <==> NoOverCapFailure(w, cfg, s, run)
    ensures NoOverCapFailure(w, cfg, s, run) ==> Capped(cfg, After(w, cfg, s, run))
    decreases |run|
  {
    hide DbOk, Grows, Step, Capped, OverCapFailure;
    if run != [] {
      StepKeeps(w, cfg, s, run[0]);
      StepCappedIff(w, cfg, s, run[0]);
      if !OverCapFailure(cfg, s, run[0]) { AlwaysCappedIff(w, cfg, Step(w, cfg, s, run[0]).0, run[1..]); }
    }
  }

  /** A submission that makes a record makes one over the limit exactly when it names an upload session
      that is over it. */
  lemma RecordOverLimitIff(w: World, cfg: Tiers.Limits, s: State, sub: Id, p: Id, input: Input, y: nat, m: nat, at: Time, index: map<string, Id>)
    requires Inv(w, cfg, s) && p !in s.db.signatures
    ensures var db := Submitting(w, cfg, s, sub, p, input, y, m, at, index).0.db;
            p in db.signatures ==>
              (db.signatures[p].size > cfg.upload <==>
                 input.FromUpload? && input.id in s.uploads.sessions && s.uploads.sessions[input.id].size > cfg.upload)
  {
    hide StrictVerify, K.Key, DbOk, Record;
    if p in s.db.reservations && s.db.reservations[p].account == sub {
      var res := s.db.reservations[p];
      var got := SignedInput(cfg, s.uploads, sub, input);
      if got.Some? {
        var (body, size) := got.value;
        var key := K.Key(y, m, p);
        var v := StrictVerify(w, s, p, res, body, at, index);
        if v.Some? {
          RecordedIsThat(s, p, key, body,
            Signature(res.account, res.device, v.value.certificate, v.value.serial, v.value.fingerprint, res.originalSha512,
                      w.sha512(body), key, |body|, VerificationAccepted), input);
        }
        RecordedIsThat(s, p, key, body,
          Signature(res.account, res.device, "", "", "", res.originalSha512, w.sha512(body), key, size, VerificationStoredOnly), input);
      }
    }
  }

  lemma RecordedIsThat(s: State, p: Id, key: string, body: Bytes, sig: Signature, input: Input)
    requires p in s.db.reservations && p !in s.db.signatures
    ensures var db := Record(s, p, key, body, sig, input).0.db; p in db.signatures && db.signatures[p] == sig
  {
  }

  /** In every reachable state, each record's hash and size are those of the bytes under its key; it
      is marked accepted exactly when the size is within the verify tier; and the size is within the
      upload limit, or one byte over it if an upload copy failed on that byte. */
  lemma StoredBytesMatchRecord(w: World, cfg: Tiers.Limits, s0: State, run: seq<Event>, p: Id)
    requires Tiers.Ordered(cfg) && Initial(s0) && LegalRun(w, cfg, s0, run) && p in After(w, cfg, s0, run).db.signatures
    ensures var db := After(w, cfg, s0, run).db;
            var sig := db.signatures[p];
            && sig.objectKey in db.objects
            && w.sha512(db.objects[sig.objectKey]) == sig.signedSha512
            && |db.objects[sig.objectKey]| == sig.size
            && (sig.verification == VerificationAccepted <==> sig.size <= cfg.verify)
            && sig.size <= cfg.upload + 1
            && (NoOverCapFailure(w, cfg, s0, run) ==> sig.size <= cfg.upload)
  {
    InitialInv(w, cfg, s0);
    RunKeeps(w, cfg, s0, run);
    assert ObjectMatches(w, cfg, After(w, cfg, s0, run).db, p, After(w, cfg, s0, run).db.signatures[p]);
    AlwaysCappedIff(w, cfg, s0, run);
  }

  // ---- records are final ----

  /** A record never changes once created, and the reservation's mark never comes off. */
  lemma RecordsAreFinal(w: World, cfg: Tiers.Limits, s: State, run: seq<Event>, p: Id)
    requires Inv(w, cfg, s) && LegalRun(w, cfg, s, run) && p in s.db.signatures
    ensures var db := After(w, cfg, s, run).db;
            && p in db.signatures && db.signatures[p] == s.db.signatures[p]
            && p in db.reservations && db.reservations[p].status == ReservationAccepted
  {
    RunKeeps(w, cfg, s, run);
  }

  /** Submitting to a completed reservation returns the record and changes nothing, whatever is sent. */
  lemma ResubmissionIsIdempotent(w: World, cfg: Tiers.Limits, s: State, sub: Id, p: Id, input: Input, y: nat, m: nat, at: Time, index: map<string, Id>)
    requires Inv(w, cfg, s) && p in s.db.signatures && s.db.reservations[p].account == sub
    ensures Submitting(w, cfg, s, sub, p, input, y, m, at, index) == (s, Recorded(s.db.signatures[p]))
  {
    assert Completed(s.db) && Traced(s.db);
  }

  // ---- disabling an account ----

  /** The account is not active and holds no active certificate. */
  ghost predicate Dormant(db: Db, id: Id) {
    && id in db.used
    && (id in db.accounts ==> db.accounts[id].role == RoleUser && db.accounts[id].status != AccountActive)
    && forall c :: c in db.certificates && db.certificates[c].account == id ==> db.certificates[c].status == CertRevoked
  }

  /** An approve or enable step, or an admin binding a certificate to an enrolment of the account. */
  predicate Reactivates(db: Db, e: Event, id: Id) {
    || (e.ApproveAccount? && e.id == id)
    || (e.EnableAccount? && e.id == id)
    || (e.IssueCertificate? && e.enrollment in db.enrollments && db.enrollments[e.enrollment].account == id)
  }

  /** Between two states the account gained no reservation and no accepted signature; any new record
      of its is store-only, for a reservation that was already open. */
  ghost predicate Quiet(a: Db, b: Db, id: Id) {
    && (forall p :: p in b.reservations && b.reservations[p].account == id ==> p in a.reservations)
    && (forall p :: p in b.signatures && b.signatures[p].account == id && p !in a.signatures ==>
          b.signatures[p].verification == VerificationStoredOnly && p in a.reservations && a.reservations[p].status == ReservationReserved)
  }

  lemma CascadeMakesDormant(w: World, cfg: Tiers.Limits, s: State, id: Id, run: CascadeRun)
    requires Inv(w, cfg, s) && run.now != 0 && ClientTarget(s.db, id)
    ensures Dormant(Disable(s, id, run).0.db, id)
  {
    hide LedgerAfter, CA.LedgerOk, U.SessionsOk, Published;
    assert id in s.db.used;
    var db1 := WithStatus(s.db, id, AccountDisabled);
    var b := Disable(s, id, run).0.db;
    assert b == RevokedBy(db1, id, ActiveOf(db1, id));
    assert b.accounts == db1.accounts && db1.accounts[id].status == AccountDisabled;
  }

  /** Disabling or deleting an account: it is left dormant, the reply counts the certificates that
      were active, and no other account's certificate or device is touched. */
  lemma DisableIsExact(w: World, cfg: Tiers.Limits, s: State, e: Event)
    requires Inv(w, cfg, s) && Legal(s, e)
    requires (e.DisableAccount? || e.DeleteAccount?) && ClientTarget(s.db, e.id)
    ensures var (s', reply) := Step(w, cfg, s, e);
            && Dormant(s'.db, e.id)
            && (e.DeleteAccount? && e.erased ==> e.id !in s'.db.accounts)
            && reply == CertificatesRevoked(|ActiveOf(s.db, e.id)|)
            && s'.db.certificates.Keys == s.db.certificates.Keys
            && (forall c :: c in s.db.certificates && s.db.certificates[c].account != e.id ==> s'.db.certificates[c] == s.db.certificates[c])
            && (forall d :: d in s.db.devices && s.db.devices[d].account != e.id ==> s'.db.devices[d] == s.db.devices[d])
  {
    hide DbOk, LedgerAfter, CA.LedgerOk, U.SessionsOk, Published, BoundCertificate, Submitting;
    CascadeMakesDormant(w, cfg, s, e.id, e.cascade);
    var db1 := WithStatus(s.db, e.id, AccountDisabled);
    assert ActiveOf(db1, e.id) == ActiveOf(s.db, e.id);
  }

  // ---- a dormant account stays dormant ----

  lemma QuietTransitive(a: Db, b: Db, c: Db, id: Id)
    requires Quiet(a, b, id) && Quiet(b, c, id) && Grows(a, b) && Grows(b, c) && Traced(c)
    ensures Quiet(a, c, id)
  {
  }

  /** The account is still not active, none of its certificates is new, and it gained nothing. */
  ghost predicate Undisturbed(a: Db, b: Db, id: Id) {
    && (id in b.accounts ==> b.accounts[id].role == RoleUser && b.accounts[id].status != AccountActive)
    && (forall c :: c in b.certificates && b.certificates[c].account == id ==> c in a.certificates)
    && Quiet(a, b, id)
  }

  lemma UndisturbedStaysDormant(a: Db, b: Db, id: Id)
    requires Dormant(a, id) && Undisturbed(a, b, id) && Grows(a, b)
    ensures Dormant(b, id)
  {
  }

  lemma UndisturbedSince(a: Db, b: Db, c: Db, id: Id)
    requires Undisturbed(b, c, id)
    requires b.certificates == a.certificates && b.reservations == a.reservations && b.signatures == a.signatures
    ensures Undisturbed(a, c, id)
  {
  }

  /** Enrolling while not active issues nothing. */
  lemma EnrollLeavesAlone(w: World, db: Db, id: Id, sub: Id, device: Id, csr: Bytes, enr: Id, online: Option<Issue>)
    requires Dormant(db, id)
    ensures Undisturbed(db, EnrollCsr(w, db, sub, device, csr, enr, online).0, id)
  {
    hide Bind, Undisturbed;
    StandingStill(db, id);
    if OwnsDevice(db, sub, device) && w.parseCsr(csr).Some? {
      var db1 := db.(enrollments := db.enrollments[enr := Enrollment(device, sub, csr, EnrollmentSubmitted)], used := db.used + {enr});
      UndisturbedByStatuses(db, db1, id);
      if online.Some? && sub in db.accounts && db.accounts[sub].status == AccountActive {
        assert sub != id && Dormant(db1, id);
        BindLeavesAlone(w, db1, id, enr, online.value);
        UndisturbedSince(db, db1, Bind(w, db1, enr, online.value).0, id);
      }
    }
  }

  lemma BoundFields(w: World, db: Db, enr: Id, issue: Issue)
    requires enr in db.enrollments && BoundCertificate(w, db, enr, issue).Some?
    ensures BoundCertificate(w, db, enr, issue).value.account == db.enrollments[enr].account
  {
  }

  lemma BindLeavesAlone(w: World, db: Db, id: Id, enr: Id, issue: Issue)
    requires Dormant(db, id) && enr in db.enrollments && db.enrollments[enr].account != id
    ensures Undisturbed(db, Bind(w, db, enr, issue).0, id)
  {
    hide BoundCertificate;
    if BoundCertificate(w, db, enr, issue).Some? { BoundFields(w, db, enr, issue); }
  }

  lemma DisableLeavesAlone(s: State, id: Id, other: Id, run: CascadeRun)
    requires CA.LedgerOk(s.ledger) && run.now != 0 && Dormant(s.db, id)
    ensures Undisturbed(s.db, Disable(s, other, run).0.db, id)
  {
    hide LedgerAfter, CA.LedgerOk, Published, Carries;
  }

  /** A device of the account has no active certificate, so nothing can be reserved on it. */
  lemma ReserveLeavesAlone(w: World, db: Db, id: Id, sub: Id, device: Id, sha: string, newest: Option<Id>, pid: Id)
    requires Dormant(db, id) && Enrolled(w, db) && Bound(w, db) && NewestOfDevice(db.certificates, device, newest)
    ensures Undisturbed(db, Reserving(db, sub, device, sha, newest, pid).0, id)
  {
    if sub == id && OwnsDevice(db, sub, device) && newest.Some? {
      var c := db.certificates[newest.value];
      assert CertificateBound(w, db, c);
      assert c.account == id;
    }
  }

  lemma RecordLeavesAlone(s: State, id: Id, p: Id, key: string, body: Bytes, sig: Signature, input: Input)
    requires Dormant(s.db, id) && p in s.db.reservations && Completed(s.db)
    requires sig.account == id ==> sig.verification == VerificationStoredOnly
    ensures Undisturbed(s.db, Record(s, p, key, body, sig, input).0.db, id)
  {
  }

  /** A document of the account cannot pass strict verification. */
  lemma SubmitLeavesAlone(w: World, cfg: Tiers.Limits, s: State, id: Id, sub: Id, p: Id, input: Input, y: nat, m: nat, at: Time, index: map<string, Id>)
    requires Dormant(s.db, id) && Inv(w, cfg, s) && SerialIndex(s.db.certificates, index)
    ensures Undisturbed(s.db, Submitting(w, cfg, s, sub, p, input, y, m, at, index).0.db, id)
  {
    hide StrictVerify, K.Key, Record, DbOk;
    assert Completed(s.db) && Reserved(s.db) by { DbOkParts(w, cfg, s.db); }
    if p in s.db.reservations && s.db.reservations[p].account == sub {
      var res := s.db.reservations[p];
      var got := SignedInput(cfg, s.uploads, sub, input);
      if got.Some? {
        var (body, size) := got.value;
        var key := K.Key(y, m, p);
        var v := StrictVerify(w, s, p, res, body, at, index);
        if v.Some? {
          StrictVerifyEstablishes(w, s, p, res, body, at, index);
          assert res.account != id;
          RecordLeavesAlone(s, id, p, key, body,
            Signature(res.account, res.device, v.value.certificate, v.value.serial, v.value.fingerprint, res.originalSha512,
                      w.sha512(body), key, |body|, VerificationAccepted), input);
        }
        RecordLeavesAlone(s, id, p, key, body,
          Signature(res.account, res.device, "", "", "", res.originalSha512, w.sha512(body), key, size, VerificationStoredOnly), input);
      }
    }
  }

  lemma UndisturbedByStatuses(a: Db, b: Db, id: Id)
    requires Dormant(a, id)
    requires b.reservations == a.reservations && b.signatures == a.signatures && b.certificates.Keys == a.certificates.Keys
    requires id in b.accounts ==> b.accounts[id].role == RoleUser && b.accounts[id].status != AccountActive
    ensures Undisturbed(a, b, id)
  {
  }

  lemma AccountsLeaveAlone(w: World, cfg: Tiers.Limits, s: State, e: Event, id: Id)
    requires CA.LedgerOk(s.ledger) && Legal(s, e) && Dormant(s.db, id) && !Reactivates(s.db, e, id) && OnAccounts(e)
    ensures Undisturbed(s.db, StepAccounts(s, e).0.db, id)
  {
    hide Disable, CA.LedgerOk, AccountListing, Undisturbed;
    if e.DisableAccount? || e.DeleteAccount? {
      DisableLeavesAlone(s, id, e.id, e.cascade);
      ErasureLeavesAlone(s.db, Disable(s, e.id, e.cascade).0.db, id, e.id);
    } else {
      AccountsFrame(s, e);
      UndisturbedByStatuses(s.db, StepAccounts(s, e).0.db, id);
    }
  }

  lemma EnrolmentLeavesAlone(w: World, s: State, e: Event, id: Id)
    requires Dormant(s.db, id) && !Reactivates(s.db, e, id) && OnEnrolment(e)
    ensures Undisturbed(s.db, StepEnrolment(w, s, e).0.db, id)
  {
    hide EnrollCsr, Bind, Undisturbed;
    StandingStill(s.db, id);
    if e.SubmitCsr? {
      EnrollLeavesAlone(w, s.db, id, e.sub, e.device, e.csr, e.enrollment, e.online);
    } else if e.IssueCertificate? {
      if e.enrollment in s.db.enrollments { BindLeavesAlone(w, s.db, id, e.enrollment, e.issue); }
    } else {
      EnrolmentFrame(w, s, e);
      UndisturbedByStatuses(s.db, StepEnrolment(w, s, e).0.db, id);
    }
  }

  lemma SigningLeavesAlone(w: World, cfg: Tiers.Limits, s: State, e: Event, id: Id)
    requires Inv(w, cfg, s) && Legal(s, e) && Dormant(s.db, id) && !OnAccounts(e) && !OnEnrolment(e)
    ensures Undisturbed(s.db, StepSigning(w, cfg, s, e).0.db, id)
  {
    hide DbOk, Undisturbed, Reserving, Submitting, Stamping, Dormant, CA.LedgerOk, U.SessionsOk, U.ChunkHandled, U.Reaped, U.Created;
    hide Enrolled, Bound, Reserved, Traced, Completed, EmailsIndexed, Known, NewestOfDevice, SerialIndex;
    DbOkParts(w, cfg, s.db);
    if e.Reserve? {
      ReserveLeavesAlone(w, s.db, id, e.sub, e.device, e.sha512, e.newest, e.publicId);
    } else if e.Submit? {
      SubmitLeavesAlone(w, cfg, s, id, e.sub, e.publicId, e.input, e.year, e.month, e.at, e.index);
    } else {
      SigningFrame(w, cfg, s, e);
      StandingStill(s.db, id);
    }
  }

  lemma StepLeavesAlone(w: World, cfg: Tiers.Limits, s: State, e: Event, id: Id)
    requires Inv(w, cfg, s) && Legal(s, e) && Dormant(s.db, id) && !Reactivates(s.db, e, id)
    ensures Undisturbed(s.db, Step(w, cfg, s, e).0.db, id)
  {
    hide DbOk, Undisturbed, StepAccounts, StepEnrolment, StepSigning, Dormant, CA.LedgerOk, U.SessionsOk, Legal, Reactivates;
    if OnAccounts(e) {
      AccountsLeaveAlone(w, cfg, s, e, id);
    } else if OnEnrolment(e) {
      EnrolmentLeavesAlone(w, s, e, id);
    } else {
      SigningLeavesAlone(w, cfg, s, e, id);
    }
  }

  lemma StandingStill(db: Db, id: Id)
    requires Dormant(db, id)
    ensures Undisturbed(db, db, id)
  {
  }

  lemma ErasureLeavesAlone(a: Db, b: Db, id: Id, other: Id)
    requires Undisturbed(a, b, id)
    ensures Undisturbed(a, WithoutAccount(b, other), id)
  {
  }

  /** No step of the run reactivates the account. */
  ghost predicate NeverReactivated(w: World, cfg: Tiers.Limits, s: State, run: seq<Event>, id: Id)
    requires CA.LedgerOk(s.ledger) && LegalRun(w, cfg, s, run)
    decreases |run|
  {
    run == [] || (!Reactivates(s.db, run[0], id) && NeverReactivated(w, cfg, Step(w, cfg, s, run[0]).0, run[1..], id))
  }

  lemma {:induction false} DormantStaysQuiet(w: World, cfg: Tiers.Limits, s: State, run: seq<Event>, id: Id)
    requires Inv(w, cfg, s) && Dormant(s.db, id) && LegalRun(w, cfg, s, run) && NeverReactivated(w, cfg, s, run, id)
    ensures Dormant(After(w, cfg, s, run).db, id) && Quiet(s.db, After(w, cfg, s, run).db, id)
    decreases |run|
  {
    hide DbOk, Grows, Step, Dormant, Quiet, Reactivates;
    if run == [] {
      StandingStill(s.db, id);
    } else {
      var s1 := Step(w, cfg, s, run[0]).0;
      var s2 := After(w, cfg, s, run);
      StepKeeps(w, cfg, s, run[0]);
      StepLeavesAlone(w, cfg, s, run[0], id);
      UndisturbedStaysDormant(s.db, s1.db, id);
      DormantStaysQuiet(w, cfg, s1, run[1..], id);
      RunKeeps(w, cfg, s1, run[1..]);
      DbOkParts(w, cfg, s2.db);
      QuietTransitive(s.db, s1.db, s2.db, id);
    }
  }

  /** After an account is disabled or deleted, and as long as it is not approved or enabled again and
      no admin binds it a certificate, it never holds an active certificate, makes no reservation and
      gets no accepted signature. */
  lemma DisabledAccountIsInert(w: World, cfg: Tiers.Limits, s: State, e: Event, run: seq<Event>)
    requires Inv(w, cfg, s) && Legal(s, e)
    requires (e.DisableAccount? || e.DeleteAccount?) && ClientTarget(s.db, e.id)
    requires LegalRun(w, cfg, Step(w, cfg, s, e).0, run) && NeverReactivated(w, cfg, Step(w, cfg, s, e).0, run, e.id)
    ensures var s1 := Step(w, cfg, s, e).0;
            var s2 := After(w, cfg, s1, run);
            && Dormant(s2.db, e.id)
            && (forall p :: p in s2.db.reservations && s2.db.reservations[p].account == e.id ==> p in s1.db.reservations)
            && (forall p | p in s2.db.signatures && s2.db.signatures[p].account == e.id ::
                  s2.db.signatures[p].verification == VerificationAccepted ==>
                  p in s1.db.signatures && s1.db.signatures[p] == s2.db.signatures[p])
  {
    hide Step, DbOk;
    var s1 := Step(w, cfg, s, e).0;
    StepKeeps(w, cfg, s, e);
    DisableIsExact(w, cfg, s, e);
    DormantStaysQuiet(w, cfg, s1, run, e.id);
    RunKeeps(w, cfg, s1, run);
  }

  /** What a disabled account can still do: a document over the verify tier, sent to a reservation it
      had left open, is stored and recorded as not verified. */
  lemma DisabledMayStillStore(w: World, cfg: Tiers.Limits, s: State, id: Id, p: Id, body: Bytes, y: nat, m: nat, at: Time, index: map<string, Id>)
    requires Inv(w, cfg, s) && Dormant(s.db, id)
    requires p in s.db.reservations && s.db.reservations[p].account == id && s.db.reservations[p].status == ReservationReserved
    requires cfg.verify < |body| <= cfg.upload
    ensures var (s', reply) := Submitting(w, cfg, s, id, p, RawBody(body), y, m, at, index);
            reply.Recorded? && p in s'.db.signatures && s'.db.signatures[p].verification == VerificationStoredOnly
  {
    assert Completed(s.db);
  }
}
