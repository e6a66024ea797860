/** What every step of the receiver keeps. */
module ReceiverInvariant {
  import opened Basics
  import opened Pki
  import opened Store
  import opened Receiver
  import Hex
  import CA = CaLedger
  import V = Verification
  import U = Uploads
  import K = ObjectKey
  import Tiers

  // ---- the invariant, one relation between tables at a time ----

  ghost predicate Known(db: Db) {
    && db.accounts.Keys <= db.used && db.devices.Keys <= db.used && db.enrollments.Keys <= db.used
    && db.certificates.Keys <= db.used && db.reservations.Keys <= db.used
  }

  ghost predicate EmailsIndexed(db: Db) {
    && (forall e :: e in db.emails ==> db.emails[e] in db.accounts && db.accounts[db.emails[e]].email == e)
    && (forall a :: a in db.accounts ==> db.accounts[a].email in db.emails && db.emails[db.accounts[a].email] == a)
  }

  ghost predicate Enrolled(w: World, db: Db) {
    forall e :: e in db.enrollments ==>
      && OwnsDevice(db, db.enrollments[e].account, db.enrollments[e].device)
      && w.parseCsr(db.enrollments[e].csr).Some?
  }

  /** Some time within its validity the certificate chained to the root, and it is an ML-DSA end-entity
      certificate for signing documents. */
  ghost predicate Trusted(w: World, x: X509) {
    x.mldsa && !x.isCA && x.documentSigning && exists at :: x.notBefore <= at <= x.notAfter && w.chains(x, at)
  }

  /** The certificate is a trusted one, was issued for the enrolment of its own account and device, and
      holds the key of the CSR enrolled there. */
  ghost predicate CertificateBound(w: World, db: Db, c: Certificate) {
    && c.enrollment in db.enrollments
    && db.enrollments[c.enrollment].account == c.account
    && db.enrollments[c.enrollment].device == c.device
    && w.parseCertificate(c.pem).Some?
    && var x := w.parseCertificate(c.pem).value;
       && Hex.Print(x.serial) == c.serial && x.fingerprint == c.fingerprint && x.notBefore == c.notBefore
       && Trusted(w, x)
       && w.parseCsr(db.enrollments[c.enrollment].csr) == Some(x.key)
  }

  ghost predicate Bound(w: World, db: Db) {
    forall c :: c in db.certificates ==> CertificateBound(w, db, db.certificates[c])
  }

  ghost predicate Reserved(db: Db) {
    forall p :: p in db.reservations ==> p != "" && OwnsDevice(db, db.reservations[p].account, db.reservations[p].device)
  }

  /** The record's certificate id names a stored certificate with the recorded serial, fingerprint,
      account and device. */
  predicate CertificateRecorded(db: Db, sig: Signature) {
    && sig.certificate in db.certificates
    && db.certificates[sig.certificate].serial == sig.serial
    && db.certificates[sig.certificate].fingerprint == sig.fingerprint
    && db.certificates[sig.certificate].account == sig.account
    && db.certificates[sig.certificate].device == sig.device
  }

  ghost predicate Traced(db: Db) {
    forall p :: p in db.signatures ==>
      && p in db.reservations
      && db.reservations[p].account == db.signatures[p].account
      && db.reservations[p].device == db.signatures[p].device
      && db.reservations[p].originalSha512 == db.signatures[p].originalSha512
      && (db.signatures[p].verification == VerificationAccepted ==> CertificateRecorded(db, db.signatures[p]))
  }

  /** A reservation is marked accepted exactly when its record exists. */
  ghost predicate Completed(db: Db) {
    forall p :: p in db.reservations ==> (db.reservations[p].status == ReservationAccepted <==> p in db.signatures)
  }

  /** The stored bytes are the ones the record describes, and their size decided the tier. */
  predicate ObjectMatches(w: World, cfg: Tiers.Limits, db: Db, p: Id, sig: Signature) {
    && K.Owner(sig.objectKey) == p
    && sig.objectKey in db.objects
    && w.sha512(db.objects[sig.objectKey]) == sig.signedSha512
    && |db.objects[sig.objectKey]| == sig.size
    && (sig.verification == VerificationAccepted <==> sig.size <= cfg.verify)
    && (sig.size <= cfg.upload + 1 || sig.size == 0)
  }

  ghost predicate Intact(w: World, cfg: Tiers.Limits, db: Db) {
    forall p :: p in db.signatures ==> ObjectMatches(w, cfg, db, p, db.signatures[p])
  }

  /** The document holds exactly one signature; it is valid, chains to the root, names this
      reservation, and was made with the certificate of that serial and fingerprint. */
  predicate SoleSigner(w: World, pdf: Bytes, at: Time, p: Id, serial: string, fingerprint: string) {
    var parsed := w.parsePdf(pdf, at);
    && parsed.Signatures? && |parsed.sigs| == 1
    && var s := parsed.sigs[0];
       && s.valid && s.trustedChain && !s.revoked
       && s.contact == V.PUBLIC_ID_PREFIX + p
       && s.certificate.Some? && s.certificate.value.mldsa
       && Hex.Print(s.certificate.value.serial) == serial
       && s.certificate.value.fingerprint == fingerprint
  }

  ghost predicate Signed(w: World, db: Db) {
    forall p :: p in db.signatures && db.signatures[p].verification == VerificationAccepted ==>
      && db.signatures[p].objectKey in db.objects
      && exists at :: SoleSigner(w, db.objects[db.signatures[p].objectKey], at, p, db.signatures[p].serial, db.signatures[p].fingerprint)
  }

  ghost predicate DbOk(w: World, cfg: Tiers.Limits, db: Db) {
    && Known(db) && EmailsIndexed(db) && Enrolled(w, db) && Bound(w, db) && Reserved(db)
    && Traced(db) && Completed(db) && Intact(w, cfg, db) && Signed(w, db)
  }

  ghost predicate Inv(w: World, cfg: Tiers.Limits, s: State) {
    DbOk(w, cfg, s.db) && CA.LedgerOk(s.ledger) && U.SessionsOk(cfg.upload, s.uploads)
  }

  lemma DbOkParts(w: World, cfg: Tiers.Limits, db: Db)
    requires DbOk(w, cfg, db)
    ensures Known(db) && EmailsIndexed(db) && Enrolled(w, db) && Bound(w, db) && Reserved(db) && Traced(db) && Completed(db)
  {
  }

  // ---- what a step may do to existing rows ----

  ghost predicate DevicesGrow(a: Db, b: Db) {
    forall d :: d in a.devices ==>
      && d in b.devices && b.devices[d].account == a.devices[d].account
      && (a.devices[d].status == DeviceLost ==> b.devices[d].status == DeviceLost)
  }

  ghost predicate EnrollmentsGrow(a: Db, b: Db) {
    forall e :: e in a.enrollments ==>
      e in b.enrollments && b.enrollments[e].(status := a.enrollments[e].status) == a.enrollments[e]
  }

  ghost predicate CertificatesGrow(a: Db, b: Db) {
    forall c :: c in a.certificates ==>
      && c in b.certificates && b.certificates[c].(status := a.certificates[c].status) == a.certificates[c]
      && (a.certificates[c].status == CertRevoked ==> b.certificates[c].status == CertRevoked)
  }

  ghost predicate ReservationsGrow(a: Db, b: Db) {
    forall p :: p in a.reservations ==>
      && p in b.reservations && b.reservations[p].(status := a.reservations[p].status) == a.reservations[p]
      && (a.reservations[p].status == ReservationAccepted ==> b.reservations[p].status == ReservationAccepted)
  }

  ghost predicate SignaturesGrow(a: Db, b: Db) {
    forall p :: p in a.signatures ==> p in b.signatures && b.signatures[p] == a.signatures[p]
  }

  /** Rows are never deleted or re-owned (accounts aside), statuses only move forward, and
      signature records never change. */
  ghost predicate Grows(a: Db, b: Db) {
    && a.used <= b.used && DevicesGrow(a, b) && EnrollmentsGrow(a, b) && CertificatesGrow(a, b)
    && ReservationsGrow(a, b) && SignaturesGrow(a, b)
  }

  lemma GrowsReflexive(a: Db)
    ensures Grows(a, a)
  {
  }

  lemma GrowsTransitive(a: Db, b: Db, c: Db)
    requires Grows(a, b) && Grows(b, c)
    ensures Grows(a, c)
  {
  }

  // ---- each relation under growth: old rows keep it, new rows must bring it ----

  lemma EnrolledGrows(w: World, a: Db, b: Db)
    requires Enrolled(w, a) && DevicesGrow(a, b) && EnrollmentsGrow(a, b)
    requires forall e :: e in b.enrollments && e !in a.enrollments ==>
               OwnsDevice(b, b.enrollments[e].account, b.enrollments[e].device) && w.parseCsr(b.enrollments[e].csr).Some?
    ensures Enrolled(w, b)
  {
  }

  lemma BoundGrows(w: World, a: Db, b: Db)
    requires Bound(w, a) && EnrollmentsGrow(a, b) && CertificatesGrow(a, b)
    requires forall c :: c in b.certificates && c !in a.certificates ==> CertificateBound(w, b, b.certificates[c])
    ensures Bound(w, b)
  {
    forall c | c in b.certificates ensures CertificateBound(w, b, b.certificates[c]) {
      if c in a.certificates { assert CertificateBound(w, a, a.certificates[c]); }
    }
  }

  lemma ReservedGrows(a: Db, b: Db)
    requires Reserved(a) && DevicesGrow(a, b) && ReservationsGrow(a, b)
    requires forall p :: p in b.reservations && p !in a.reservations ==>
               p != "" && OwnsDevice(b, b.reservations[p].account, b.reservations[p].device)
    ensures Reserved(b)
  {
  }

  lemma TracedGrows(a: Db, b: Db)
    requires Traced(a) && CertificatesGrow(a, b) && ReservationsGrow(a, b) && SignaturesGrow(a, b)
    requires forall p :: p in b.signatures && p !in a.signatures ==>
               && p in b.reservations && b.reservations[p].account == b.signatures[p].account
               && b.reservations[p].device == b.signatures[p].device
               && b.reservations[p].originalSha512 == b.signatures[p].originalSha512
               && (b.signatures[p].verification == VerificationAccepted ==> CertificateRecorded(b, b.signatures[p]))
    ensures Traced(b)
  {
  }

  lemma ObjectsGrow(w: World, cfg: Tiers.Limits, a: Db, b: Db)
    requires Intact(w, cfg, a) && Signed(w, a) && SignaturesGrow(a, b) && b.signatures == a.signatures && b.objects == a.objects
    ensures Intact(w, cfg, b) && Signed(w, b)
  {
    forall p | p in b.signatures ensures ObjectMatches(w, cfg, b, p, b.signatures[p]) {
      assert ObjectMatches(w, cfg, a, p, a.signatures[p]);
    }
  }

  /** A growing step that leaves signatures, objects and reservation statuses alone. */
  lemma GrowStep(w: World, cfg: Tiers.Limits, a: Db, b: Db)
    requires DbOk(w, cfg, a) && Grows(a, b) && Known(b) && EmailsIndexed(b)
    requires b.signatures == a.signatures && b.objects == a.objects
    requires forall p :: p in b.reservations ==> if p in a.reservations then b.reservations[p] == a.reservations[p]
                                                 else b.reservations[p].status == ReservationReserved && p !in a.signatures
    requires Enrolled(w, b) && Bound(w, b) && Reserved(b)
    ensures DbOk(w, cfg, b)
  {
    TracedGrows(a, b);
    ObjectsGrow(w, cfg, a, b);
  }

  // ---- steps, by the tables they touch ----

  /** Only accounts changed. */
  ghost predicate SameButAccounts(a: Db, b: Db) {
    && b == a.(accounts := b.accounts, emails := b.emails, used := b.used)
    && a.used <= b.used && b.accounts.Keys <= b.used && EmailsIndexed(b)
  }

  lemma AccountsStep(w: World, cfg: Tiers.Limits, a: Db, b: Db)
    requires DbOk(w, cfg, a) && SameButAccounts(a, b)
    ensures DbOk(w, cfg, b) && Grows(a, b)
  {
    BoundGrows(w, a, b);
    GrowStep(w, cfg, a, b);
  }

  lemma AddAccountKeeps(w: World, cfg: Tiers.Limits, db: Db, id: Id, acc: Account)
    requires DbOk(w, cfg, db) && id !in db.used
    ensures var b := AddAccount(db, id, acc).0; DbOk(w, cfg, b) && Grows(db, b)
  {
    hide DbOk, Enrolled, Bound, Reserved, Traced, Completed, Grows;
    DbOkParts(w, cfg, db);
    assert SameButAccounts(db, AddAccount(db, id, acc).0);
    AccountsStep(w, cfg, db, AddAccount(db, id, acc).0);
  }

  lemma WithStatusKeeps(w: World, cfg: Tiers.Limits, db: Db, id: Id, status: AccountStatus)
    requires DbOk(w, cfg, db)
    ensures var b := WithStatus(db, id, status); DbOk(w, cfg, b) && Grows(db, b)
  {
    hide DbOk, Enrolled, Bound, Reserved, Traced, Completed, Grows;
    DbOkParts(w, cfg, db);
    assert SameButAccounts(db, WithStatus(db, id, status));
    AccountsStep(w, cfg, db, WithStatus(db, id, status));
  }

  lemma WithoutAccountKeeps(w: World, cfg: Tiers.Limits, db: Db, id: Id)
    requires DbOk(w, cfg, db)
    ensures var b := WithoutAccount(db, id); DbOk(w, cfg, b) && Grows(db, b)
  {
    hide DbOk, Enrolled, Bound, Reserved, Traced, Completed, Grows;
    DbOkParts(w, cfg, db);
    assert SameButAccounts(db, WithoutAccount(db, id));
    AccountsStep(w, cfg, db, WithoutAccount(db, id));
  }

  /** Devices added or lost, enrolment statuses changed, certificates revoked. */
  ghost predicate OnlyStatuses(a: Db, b: Db) {
    && b == a.(devices := b.devices, enrollments := b.enrollments, certificates := b.certificates, used := b.used)
    && a.used <= b.used && b.devices.Keys <= b.used
    && b.enrollments.Keys == a.enrollments.Keys && b.certificates.Keys == a.certificates.Keys
    && DevicesGrow(a, b) && EnrollmentsGrow(a, b) && CertificatesGrow(a, b)
  }

  lemma StatusesStep(w: World, cfg: Tiers.Limits, a: Db, b: Db)
    requires DbOk(w, cfg, a) && OnlyStatuses(a, b)
    ensures DbOk(w, cfg, b) && Grows(a, b)
  {
    EnrolledGrows(w, a, b);
    BoundGrows(w, a, b);
    ReservedGrows(a, b);
    GrowStep(w, cfg, a, b);
  }

  lemma DeviceKeeps(w: World, cfg: Tiers.Limits, db: Db, sub: Id, d: Id)
    requires DbOk(w, cfg, db) && d !in db.used
    ensures var b := WithDevice(db, sub, d); DbOk(w, cfg, b) && Grows(db, b)
  {
    hide DbOk, EmailsIndexed, Enrolled, Bound, Reserved, Traced, Completed, Grows;
    DbOkParts(w, cfg, db);
    assert OnlyStatuses(db, WithDevice(db, sub, d));
    StatusesStep(w, cfg, db, WithDevice(db, sub, d));
  }

  lemma LostKeeps(w: World, cfg: Tiers.Limits, db: Db, d: Id)
    requires DbOk(w, cfg, db) && d in db.devices
    ensures var b := WithLost(db, d); DbOk(w, cfg, b) && Grows(db, b)
  {
    hide DbOk, EmailsIndexed, Enrolled, Bound, Reserved, Traced, Completed, Grows;
    DbOkParts(w, cfg, db);
    assert OnlyStatuses(db, WithLost(db, d));
    StatusesStep(w, cfg, db, WithLost(db, d));
  }

  lemma ApprovedKeeps(w: World, cfg: Tiers.Limits, db: Db, e: Id)
    requires DbOk(w, cfg, db) && e in db.enrollments
    ensures var b := WithApproved(db, e); DbOk(w, cfg, b) && Grows(db, b)
  {
    hide DbOk, EmailsIndexed, Enrolled, Bound, Reserved, Traced, Completed, Grows;
    DbOkParts(w, cfg, db);
    assert OnlyStatuses(db, WithApproved(db, e));
    StatusesStep(w, cfg, db, WithApproved(db, e));
  }

  lemma RevokedKeeps(w: World, cfg: Tiers.Limits, db: Db, c: Id)
    requires DbOk(w, cfg, db) && c in db.certificates
    ensures var b := WithRevoked(db, c); DbOk(w, cfg, b) && Grows(db, b)
  {
    hide DbOk, EmailsIndexed, Enrolled, Bound, Reserved, Traced, Completed, Grows;
    DbOkParts(w, cfg, db);
    assert OnlyStatuses(db, WithRevoked(db, c));
    StatusesStep(w, cfg, db, WithRevoked(db, c));
  }

  lemma CascadeKeeps(w: World, cfg: Tiers.Limits, db: Db, account: Id)
    requires DbOk(w, cfg, db)
    ensures var b := RevokedBy(db, account, ActiveOf(db, account)); DbOk(w, cfg, b) && Grows(db, b)
  {
    hide DbOk, EmailsIndexed, Enrolled, Bound, Reserved, Traced, Completed, Grows;
    DbOkParts(w, cfg, db);
    assert OnlyStatuses(db, RevokedBy(db, account, ActiveOf(db, account)));
    StatusesStep(w, cfg, db, RevokedBy(db, account, ActiveOf(db, account)));
  }

  /** A new enrolment of an owned device. */
  lemma EnrollmentStep(w: World, cfg: Tiers.Limits, a: Db, id: Id, e: Enrollment)
    requires DbOk(w, cfg, a) && id !in a.used && OwnsDevice(a, e.account, e.device) && w.parseCsr(e.csr).Some?
    ensures var b := a.(enrollments := a.enrollments[id := e], used := a.used + {id}); DbOk(w, cfg, b) && Grows(a, b)
  {
    hide DbOk, EmailsIndexed, Traced, Completed;
    hide Enrolled, Bound, Reserved;
    var b := a.(enrollments := a.enrollments[id := e], used := a.used + {id});
    DbOkParts(w, cfg, a);
    EnrollmentRelations(w, a, id, e);
    EmailsUntouched(a, b);
    GrowStep(w, cfg, a, b);
  }

  lemma EnrollmentRelations(w: World, a: Db, id: Id, e: Enrollment)
    requires Known(a) && Enrolled(w, a) && Bound(w, a) && Reserved(a)
    requires id !in a.used && OwnsDevice(a, e.account, e.device) && w.parseCsr(e.csr).Some?
    ensures var b := a.(enrollments := a.enrollments[id := e], used := a.used + {id});
            Enrolled(w, b) && Bound(w, b) && Reserved(b)
  {
    var b := a.(enrollments := a.enrollments[id := e], used := a.used + {id});
    EnrolledGrows(w, a, b);
    BoundGrows(w, a, b);
  }

  lemma EmailsUntouched(a: Db, b: Db)
    requires EmailsIndexed(a) && b.accounts == a.accounts && b.emails == a.emails
    ensures EmailsIndexed(b)
  {
  }

  lemma CertificateRows(a: Db, enrollment: Id, id: Id, c: Certificate)
    requires enrollment in a.enrollments && id !in a.certificates && Known(a)
    ensures var b := WithCertificate(a, enrollment, id, c); Grows(a, b) && Known(b)
  {
  }

  lemma CertificateStep(w: World, cfg: Tiers.Limits, a: Db, enrollment: Id, id: Id, c: Certificate)
    requires DbOk(w, cfg, a) && enrollment in a.enrollments && id !in a.used
    requires CertificateBound(w, a, c)
    ensures var b := WithCertificate(a, enrollment, id, c); DbOk(w, cfg, b) && Grows(a, b)
  {
    var b := WithCertificate(a, enrollment, id, c);
    CertificateRows(a, enrollment, id, c);
    EnrolledGrows(w, a, b);
    assert CertificateBound(w, b, c);
    BoundGrows(w, a, b);
    GrowStep(w, cfg, a, b);
  }

  lemma BindKeeps(w: World, cfg: Tiers.Limits, a: Db, enrollment: Id, issue: Issue)
    requires DbOk(w, cfg, a) && enrollment in a.enrollments && issue.certificate !in a.used
    ensures var b := Bind(w, a, enrollment, issue).0; DbOk(w, cfg, b) && Grows(a, b)
  {
    match BoundCertificate(w, a, enrollment, issue)
    case None =>
    case Some(c) => CertificateStep(w, cfg, a, enrollment, issue.certificate, c);
  }

  lemma EnrollKeeps(w: World, cfg: Tiers.Limits, db: Db, sub: Id, device: Id, csr: Bytes, enrollment: Id, online: Option<Issue>)
    requires DbOk(w, cfg, db) && enrollment !in db.used
    requires online.Some? ==> online.value.certificate !in db.used && online.value.certificate != enrollment
    ensures var b := EnrollCsr(w, db, sub, device, csr, enrollment, online).0; DbOk(w, cfg, b) && Grows(db, b)
  {
    hide DbOk, Grows, Bind;
    GrowsReflexive(db);
    if OwnsDevice(db, sub, device) && w.parseCsr(csr).Some? {
      var e := Enrollment(device, sub, csr, EnrollmentSubmitted);
      EnrollmentStep(w, cfg, db, enrollment, e);
      var db1 := db.(enrollments := db.enrollments[enrollment := e], used := db.used + {enrollment});
      if online.Some? {
        BindKeeps(w, cfg, db1, enrollment, online.value);
        GrowsTransitive(db, db1, Bind(w, db1, enrollment, online.value).0);
      }
    }
  }

  lemma ReservationRows(a: Db, id: Id, r: Reservation)
    requires Known(a) && id !in a.used
    ensures var b := WithReservation(a, id, r); Grows(a, b) && Known(b)
  {
  }

  lemma ReservationStep(w: World, cfg: Tiers.Limits, a: Db, id: Id, r: Reservation)
    requires DbOk(w, cfg, a) && id !in a.used && id != "" && OwnsDevice(a, r.account, r.device) && r.status == ReservationReserved
    ensures var b := WithReservation(a, id, r); DbOk(w, cfg, b) && Grows(a, b)
  {
    var b := WithReservation(a, id, r);
    ReservationRows(a, id, r);
    BoundGrows(w, a, b);
    ReservedGrows(a, b);
    GrowStep(w, cfg, a, b);
  }

  lemma ReserveKeeps(w: World, cfg: Tiers.Limits, db: Db, sub: Id, device: Id, sha: string, newest: Option<Id>, pid: Id)
    requires DbOk(w, cfg, db) && pid !in db.used && pid != ""
    ensures var b := Reserving(db, sub, device, sha, newest, pid).0; DbOk(w, cfg, b) && Grows(db, b)
  {
    if Reserving(db, sub, device, sha, newest, pid).1.Done? {
      ReservationStep(w, cfg, db, pid, Reservation(sub, device, sha, ReservationReserved));
    }
  }

  // ---- submission ----

  /** A record that may be created: it belongs to its reservation, and its object is the document. */
  ghost predicate Recordable(w: World, cfg: Tiers.Limits, db: Db, p: Id, key: string, body: Bytes, sig: Signature) {
    && p in db.reservations && p !in db.signatures && K.Owner(key) == p
    && sig.account == db.reservations[p].account && sig.device == db.reservations[p].device
    && sig.originalSha512 == db.reservations[p].originalSha512
    && sig.objectKey == key && sig.signedSha512 == w.sha512(body) && sig.size == |body|
    && (sig.size <= cfg.upload + 1 || sig.size == 0)
    && (sig.verification == VerificationAccepted <==> sig.size <= cfg.verify)
    && (sig.verification == VerificationAccepted ==>
          CertificateRecorded(db, sig) && exists at :: SoleSigner(w, body, at, p, sig.serial, sig.fingerprint))
  }

  /** Writing one object under its own key disturbs no other record's object. */
  lemma RecordKeepsObjects(w: World, cfg: Tiers.Limits, s: State, p: Id, key: string, body: Bytes, sig: Signature, input: Input)
    requires Intact(w, cfg, s.db) && Signed(w, s.db) && Recordable(w, cfg, s.db, p, key, body, sig)
    ensures var b := Record(s, p, key, body, sig, input).0.db; Intact(w, cfg, b) && Signed(w, b)
  {
    var a, b := s.db, Record(s, p, key, body, sig, input).0.db;
    forall q | q in b.signatures
      ensures ObjectMatches(w, cfg, b, q, b.signatures[q])
      ensures q != p ==> b.objects[b.signatures[q].objectKey] == a.objects[a.signatures[q].objectKey]
    {
      if q != p { assert ObjectMatches(w, cfg, a, q, a.signatures[q]); }
    }
  }

  lemma RecordRows(w: World, cfg: Tiers.Limits, s: State, p: Id, key: string, body: Bytes, sig: Signature, input: Input)
    requires Recordable(w, cfg, s.db, p, key, body, sig) && Completed(s.db)
    ensures var b := Record(s, p, key, body, sig, input).0.db; Grows(s.db, b) && Completed(b)
  {
  }

  lemma RecordRelations(w: World, cfg: Tiers.Limits, s: State, p: Id, key: string, body: Bytes, sig: Signature, input: Input)
    requires Recordable(w, cfg, s.db, p, key, body, sig) && Completed(s.db)
    requires Bound(w, s.db) && Reserved(s.db) && Traced(s.db)
    ensures var b := Record(s, p, key, body, sig, input).0.db; Bound(w, b) && Reserved(b) && Traced(b)
  {
    var a, b := s.db, Record(s, p, key, body, sig, input).0.db;
    RecordRows(w, cfg, s, p, key, body, sig, input);
    BoundGrows(w, a, b);
    ReservedGrows(a, b);
    TracedGrows(a, b);
  }

  lemma RecordKeeps(w: World, cfg: Tiers.Limits, s: State, p: Id, key: string, body: Bytes, sig: Signature, input: Input)
    requires DbOk(w, cfg, s.db) && Recordable(w, cfg, s.db, p, key, body, sig)
    ensures var b := Record(s, p, key, body, sig, input).0.db; DbOk(w, cfg, b) && Grows(s.db, b)
  {
    RecordRows(w, cfg, s, p, key, body, sig, input);
    RecordRelations(w, cfg, s, p, key, body, sig, input);
    RecordKeepsObjects(w, cfg, s, p, key, body, sig, input);
  }

  /** The only signature of a document, when there is exactly one and it carries a certificate. */
  predicate HasSoleCertificate(w: World, pdf: Bytes, at: Time) {
    w.parsePdf(pdf, at).Signatures? && |w.parsePdf(pdf, at).sigs| == 1 && w.parsePdf(pdf, at).sigs[0].certificate.Some?
  }

  function SoleCertificate(w: World, pdf: Bytes, at: Time): (c: X509)
    requires HasSoleCertificate(w, pdf, at)
  {
    w.parsePdf(pdf, at).sigs[0].certificate.value
  }

  /** The certificate row a serial lookup found belongs to the reservation and is active. */
  predicate RowMatches(db: Db, index: map<string, Id>, res: Reservation, x: X509) {
    && Hex.Print(x.serial) in index && index[Hex.Print(x.serial)] in db.certificates
    && var c := db.certificates[index[Hex.Print(x.serial)]];
       c.account == res.account && c.device == res.device && c.status == CertActive && c.fingerprint == x.fingerprint
  }

  /** Everything the acceptance guard asks for. */
  predicate Acceptable(w: World, s: State, p: Id, res: Reservation, pdf: Bytes, at: Time, index: map<string, Id>) {
    && |pdf| >= 5 && pdf[..5] == PDF_MAGIC && |pdf| <= V.MAX_PDF_BYTES
    && p !in s.db.signatures
    && res.device in s.db.devices && s.db.devices[res.device].status == DeviceActive
    && HasSoleCertificate(w, pdf, at)
    && var x := SoleCertificate(w, pdf, at);
       && SoleSigner(w, pdf, at, p, Hex.Print(x.serial), x.fingerprint)
       && !V.StruckOut(w, s.crl, x)
       && RowMatches(s.db, index, res, x)
  }

  lemma SoleVerdict(w: World, pdf: Bytes, o: V.Options)
    requires 0 < |pdf| <= V.MAX_PDF_BYTES && w.parsePdf(pdf, o.at).Signatures? && |w.parsePdf(pdf, o.at).sigs| == 1
    ensures var vr := V.Verdict(w, pdf, o);
            var s := w.parsePdf(pdf, o.at).sigs[0];
            && vr.Some? && |vr.value.signatures| == 1
            && vr.value.signatures[0] == V.SignatureVerdict(w, o, s)
            && (vr.value.valid <==> V.Sound(w, o, s)) && (vr.value.signatures[0].valid <==> V.Sound(w, o, s))
  {
    var s := w.parsePdf(pdf, o.at).sigs[0];
    V.SignatureValidIff(w, o, s);
  }

  /** Strict verification passes exactly the acceptable documents, and reports the row it matched. */
  lemma StrictVerifyIff(w: World, s: State, p: Id, res: Reservation, pdf: Bytes, at: Time, index: map<string, Id>)
    requires p != ""
    ensures StrictVerify(w, s, p, res, pdf, at, index).Some? <==> Acceptable(w, s, p, res, pdf, at, index)
    ensures Acceptable(w, s, p, res, pdf, at, index) ==>
              var id := index[Hex.Print(SoleCertificate(w, pdf, at).serial)];
              StrictVerify(w, s, p, res, pdf, at, index) ==
                Some(VerifiedInfo(id, s.db.certificates[id].serial, s.db.certificates[id].fingerprint))
  {
    hide Hex.Print, V.CrlVerdict, V.StruckOut;
    var o := V.Options(s.crl, true, at);
    var parsed := w.parsePdf(pdf, at);
    if |pdf| >= 5 && |pdf| <= V.MAX_PDF_BYTES && parsed.Signatures? && |parsed.sigs| == 1 {
      hide V.Verdict;
      SoleVerdict(w, pdf, o);
      V.PublicIdIs(V.SignatureVerdict(w, o, parsed.sigs[0]), p);
      SoundVerdictFields(w, o, parsed.sigs[0]);
    }
  }

  /** A signature's verdict repeats the certificate's fields. */
  lemma SoundVerdictFields(w: World, o: V.Options, s: RawSignature)
    ensures V.SignatureVerdict(w, o, s).contact == s.contact && V.SignatureVerdict(w, o, s).trustedChain == s.trustedChain
    ensures s.certificate.Some? ==>
              var r, c := V.SignatureVerdict(w, o, s), s.certificate.value;
              && r.serial == Hex.Print(c.serial) && r.fingerprint == c.fingerprint && r.mldsa == c.mldsa
              && (r.revoked <==> s.revoked || V.StruckOut(w, o.crl, c))
  {
    hide Hex.Print, V.CrlPassesCheck, V.CrlIssuer;
    if s.certificate.Some? { V.PassesCheckIff(w, o.crl, s.certificate.value); }
  }

  /** What a passing strict verification has established. */
  lemma StrictVerifyEstablishes(w: World, s: State, p: Id, res: Reservation, pdf: Bytes, at: Time, index: map<string, Id>)
    requires SerialIndex(s.db.certificates, index) && p != ""
    requires StrictVerify(w, s, p, res, pdf, at, index).Some?
    ensures var info := StrictVerify(w, s, p, res, pdf, at, index).value;
            && p !in s.db.signatures
            && info.certificate in s.db.certificates
            && var c := s.db.certificates[info.certificate];
               && c.serial == info.serial && c.fingerprint == info.fingerprint
               && c.account == res.account && c.device == res.device && c.status == CertActive
               && SoleSigner(w, pdf, at, p, c.serial, c.fingerprint)
  {
    hide StrictVerify, SoleSigner;
    StrictVerifyIff(w, s, p, res, pdf, at, index);
  }

  lemma SubmitKeeps(w: World, cfg: Tiers.Limits, s: State, sub: Id, p: Id, input: Input, year: nat, month: nat, at: Time, index: map<string, Id>)
    requires Inv(w, cfg, s) && SerialIndex(s.db.certificates, index)
    ensures var b := Submitting(w, cfg, s, sub, p, input, year, month, at, index).0.db; DbOk(w, cfg, b) && Grows(s.db, b)
  {
    hide StrictVerify, Record, DbOk, Grows, K.Key, K.Owner, SerialIndex, SoleSigner;
    DbOkParts(w, cfg, s.db);
    GrowsReflexive(s.db);
    if p in s.db.reservations && s.db.reservations[p].account == sub && p !in s.db.signatures {
      var res := s.db.reservations[p];
      var got := SignedInput(cfg, s.uploads, sub, input);
      if got.Some? {
        var (body, size) := got.value;
        assert size == |body|;
        var key := K.Key(year, month, p);
        K.OwnerOfKey(year, month, p);
        if size <= cfg.verify {
          var v := StrictVerify(w, s, p, res, body, at, index);
          if v.Some? {
            StrictVerifyEstablishes(w, s, p, res, body, at, index);
            var sig := Signature(res.account, res.device, v.value.certificate, v.value.serial, v.value.fingerprint, res.originalSha512,
                                 w.sha512(body), key, |body|, VerificationAccepted);
            RecordKeeps(w, cfg, s, p, key, body, sig, input);
          }
        } else {
          var sig := Signature(res.account, res.device, "", "", "", res.originalSha512, w.sha512(body), key, size, VerificationStoredOnly);
          RecordKeeps(w, cfg, s, p, key, body, sig, input);
        }
      }
    }
  }

  // ---- every step, every run ----

  /** What disabling leaves alone. */
  lemma DisableFrame(s: State, id: Id, run: CascadeRun)
    requires CA.LedgerOk(s.ledger) && run.now != 0
    ensures var s' := Disable(s, id, run).0;
            && s'.uploads == s.uploads && s'.db.signatures == s.db.signatures && s'.db.reservations == s.db.reservations
            && s'.db.certificates.Keys == s.db.certificates.Keys
  {
    hide CA.LedgerOk, LedgerAfter, Published, Carries;
  }

  /** What account steps leave alone. */
  lemma AccountsFrame(s: State, e: Event)
    requires CA.LedgerOk(s.ledger) && Legal(s, e) && OnAccounts(e)
    ensures var s' := StepAccounts(s, e).0;
            && s'.uploads == s.uploads && s'.db.signatures == s.db.signatures && s'.db.reservations == s.db.reservations
            && s'.db.certificates.Keys == s.db.certificates.Keys
  {
    hide CA.LedgerOk, Disable, AccountListing;
    if e.DisableAccount? || e.DeleteAccount? { DisableFrame(s, e.id, e.cascade); }
  }

  /** What enrolment steps leave alone. */
  lemma EnrolmentFrame(w: World, s: State, e: Event)
    requires OnEnrolment(e)
    ensures var s' := StepEnrolment(w, s, e).0;
            && s'.uploads == s.uploads && s'.db.signatures == s.db.signatures && s'.db.reservations == s.db.reservations
            && s'.db.accounts == s.db.accounts
  {
    hide BoundCertificate;
  }

  /** Of the signing steps, only submissions touch records, and only reservations and submissions the
      database at all. */
  lemma SigningFrame(w: World, cfg: Tiers.Limits, s: State, e: Event)
    requires !OnAccounts(e) && !OnEnrolment(e) && !e.Submit?
    ensures var s' := StepSigning(w, cfg, s, e).0;
            s'.db.signatures == s.db.signatures && (!e.Reserve? ==> s'.db == s.db)
  {
    hide U.ChunkHandled, U.Reaped, U.Created;
  }

  lemma SigningKeepsUploads(w: World, cfg: Tiers.Limits, s: State, e: Event)
    requires U.SessionsOk(cfg.upload, s.uploads) && Legal(s, e) && !OnAccounts(e) && !OnEnrolment(e)
    ensures U.SessionsOk(cfg.upload, StepSigning(w, cfg, s, e).0.uploads)
  {
    hide StrictVerify, K.Key, SerialIndex, NewestOfDevice;
    if e.UploadChunk? {
      U.ChunkKeepsSessions(cfg.upload, s.uploads, e.id, e.sub, e.offset, e.delivery, e.now);
    }
  }

  lemma UploadsKept(w: World, cfg: Tiers.Limits, s: State, e: Event)
    requires CA.LedgerOk(s.ledger) && U.SessionsOk(cfg.upload, s.uploads) && Legal(s, e)
    ensures U.SessionsOk(cfg.upload, Step(w, cfg, s, e).0.uploads)
  {
    hide StepAccounts, StepEnrolment, StepSigning, CA.LedgerOk, U.SessionsOk, Legal;
    if OnAccounts(e) {
      AccountsFrame(s, e);
    } else if OnEnrolment(e) {
      EnrolmentFrame(w, s, e);
    } else {
      SigningKeepsUploads(w, cfg, s, e);
    }
  }

  lemma DisableKeeps(w: World, cfg: Tiers.Limits, s: State, id: Id, run: CascadeRun)
    requires Inv(w, cfg, s) && run.now != 0
    ensures var s' := Disable(s, id, run).0; DbOk(w, cfg, s'.db) && Grows(s.db, s'.db) && CA.LedgerOk(s'.ledger)
  {
    var s1 := s.(db := WithStatus(s.db, id, AccountDisabled));
    WithStatusKeeps(w, cfg, s.db, id, AccountDisabled);
    CascadeKeeps(w, cfg, s1.db, id);
    LedgerAfterOk(s.ledger, s1.db, run.list, if run.ca.NoCa? then {} else run.ca.reached, run.now);
    GrowsTransitive(s.db, s1.db, RevokedBy(s1.db, id, ActiveOf(s1.db, id)));
  }

  lemma DeleteKeeps(w: World, cfg: Tiers.Limits, s: State, id: Id, run: CascadeRun, erased: bool)
    requires Inv(w, cfg, s) && run.now != 0
    ensures var s' := Delete(s, id, run, erased).0; DbOk(w, cfg, s'.db) && Grows(s.db, s'.db) && CA.LedgerOk(s'.ledger)
  {
    DisableKeeps(w, cfg, s, id, run);
    var db1 := Disable(s, id, run).0.db;
    WithoutAccountKeeps(w, cfg, db1, id);
    GrowsTransitive(s.db, db1, WithoutAccount(db1, id));
  }

  lemma AccountsKeep(w: World, cfg: Tiers.Limits, s: State, e: Event)
    requires Inv(w, cfg, s) && Legal(s, e) && OnAccounts(e)
    ensures var s' := StepAccounts(s, e).0; DbOk(w, cfg, s'.db) && Grows(s.db, s'.db)
  {
    hide DbOk, Grows, Disable, CA.LedgerOk, U.SessionsOk, AccountListing;
    GrowsReflexive(s.db);
    match e
    case BootstrapSuperAdmin(id, email) => AddAccountKeeps(w, cfg, s.db, id, Account(email, RoleSuperAdmin, AccountActive));
    case Register(id, email) => AddAccountKeeps(w, cfg, s.db, id, Account(email, RoleUser, AccountPending));
    case CreateAdmin(id, email) => AddAccountKeeps(w, cfg, s.db, id, Account(email, RoleAdmin, AccountActive));
    case SetAdminStatus(id, status) => WithStatusKeeps(w, cfg, s.db, id, status);
    case DeleteAdmin(id, _) => WithStatusKeeps(w, cfg, s.db, id, AccountDisabled); WithoutAccountKeeps(w, cfg, s.db, id);
    case ApproveAccount(id) => WithStatusKeeps(w, cfg, s.db, id, AccountActive);
    case EnableAccount(id) => WithStatusKeeps(w, cfg, s.db, id, AccountActive);
    case DisableAccount(id, run) => DisableKeeps(w, cfg, s, id, run);
    case DeleteAccount(id, run, erased) => DeleteKeeps(w, cfg, s, id, run, erased);
  }

  lemma EnrolmentKeeps(w: World, cfg: Tiers.Limits, s: State, e: Event)
    requires Inv(w, cfg, s) && Legal(s, e) && OnEnrolment(e)
    ensures var s' := StepEnrolment(w, s, e).0; DbOk(w, cfg, s'.db) && Grows(s.db, s'.db)
  {
    hide DbOk, Grows, EnrollCsr, Bind, CA.LedgerOk, U.SessionsOk;
    GrowsReflexive(s.db);
    match e
    case SubmitCsr(sub, d, csr, enr, online) => EnrollKeeps(w, cfg, s.db, sub, d, csr, enr, online);
    case IssueCertificate(enr, issue) => if enr in s.db.enrollments { BindKeeps(w, cfg, s.db, enr, issue); }
    case CreateDevice(sub, d) => DeviceKeeps(w, cfg, s.db, sub, d);
    case ReportLost(sub, d) => if OwnsDevice(s.db, sub, d) { LostKeeps(w, cfg, s.db, d); }
    case ApproveEnrollment(enr) => if enr in s.db.enrollments { ApprovedKeeps(w, cfg, s.db, enr); }
    case RevokeCertificate(c) => if c in s.db.certificates { RevokedKeeps(w, cfg, s.db, c); }
    case ImportCrl(_) =>
  }

  lemma SigningKeeps(w: World, cfg: Tiers.Limits, s: State, e: Event)
    requires Inv(w, cfg, s) && Legal(s, e) && !OnAccounts(e) && !OnEnrolment(e)
    ensures var s' := StepSigning(w, cfg, s, e).0; DbOk(w, cfg, s'.db) && Grows(s.db, s'.db)
  {
    hide DbOk, Grows, Reserving, Submitting, Stamping, U.ChunkHandled, U.Reaped, U.Created, CA.LedgerOk, U.SessionsOk, NewestOfDevice;
    GrowsReflexive(s.db);
    if e.Reserve? {
      ReserveKeeps(w, cfg, s.db, e.sub, e.device, e.sha512, e.newest, e.publicId);
    } else if e.Submit? {
      SubmitKeeps(w, cfg, s, e.sub, e.publicId, e.input, e.year, e.month, e.at, e.index);
    } else {
      SigningFrame(w, cfg, s, e);
    }
  }

  /** Every step keeps the invariant, and only ever grows the tables. */
  lemma StepKeeps(w: World, cfg: Tiers.Limits, s: State, e: Event)
    requires Inv(w, cfg, s) && Legal(s, e)
    ensures Inv(w, cfg, Step(w, cfg, s, e).0) && Grows(s.db, Step(w, cfg, s, e).0.db)
  {
    hide DbOk, Grows, StepAccounts, StepEnrolment, StepSigning, CA.LedgerOk, U.SessionsOk, Legal;
    UploadsKept(w, cfg, s, e);
    if OnAccounts(e) {
      AccountsKeep(w, cfg, s, e);
    } else if OnEnrolment(e) {
      EnrolmentKeeps(w, cfg, s, e);
    } else {
      SigningKeeps(w, cfg, s, e);
    }
  }
}
