/** The receiver server as a state machine: one step per handler, run without interruption.  Random
    ids, clock readings, Go's map iteration order and the outcomes of calls to the CA are part of
    the event. */
module Receiver {
  import opened Basics
  import opened Pki
  import opened Store
  import Hex
  import CA = CaLedger
  import V = Verification
  import U = Uploads
  import K = ObjectKey
  import Tiers

  datatype State = State(db: Db, crl: CrlFile, ledger: CA.Ledger, uploads: U.Manager)

  datatype Input = RawBody(body: Bytes) | FromUpload(id: Id)

  /** A certificate returned by the online CA, and the id it would be stored under. */
  datatype Issue = Issue(pem: Bytes, certificate: Id, at: Time)

  /** `crl` as driven by the server, always for a week: it may fail, succeed without reaching the
      server, or be delivered. */
  datatype PublishOutcome = PublishFailed | PublishLost | PublishDelivered

  /** The CA during one cascade: absent, or the certificates whose `revoke` call got through. */
  datatype CaOutcome = NoCa | CaOnline(reached: set<Id>, publish: PublishOutcome)

  datatype CascadeRun = CascadeRun(list: seq<Id>, ca: CaOutcome, now: Time)

  datatype Event =
    | BootstrapSuperAdmin(id: Id, email: string)
    | Register(id: Id, email: string)
    | CreateAdmin(id: Id, email: string)
    | SetAdminStatus(id: Id, status: AccountStatus)
    | DeleteAdmin(id: Id, erased: bool)
    | ApproveAccount(id: Id)
    | EnableAccount(id: Id)
    | DisableAccount(id: Id, cascade: CascadeRun)
    | DeleteAccount(id: Id, cascade: CascadeRun, erased: bool)
    | CreateDevice(sub: Id, device: Id)
    | ReportLost(sub: Id, device: Id)
    | SubmitCsr(sub: Id, device: Id, csr: Bytes, enrollment: Id, online: Option<Issue>)
    | ApproveEnrollment(enrollment: Id)
    | IssueCertificate(enrollment: Id, issue: Issue)
    | RevokeCertificate(certificate: Id)
    | ImportCrl(file: CrlFile)
    | Reserve(sub: Id, device: Id, sha512: string, newest: Option<Id>, publicId: Id)
    | Submit(sub: Id, publicId: Id, input: Input, year: nat, month: nat, at: Time, index: map<string, Id>)
    | Stamp(sub: Id, publicId: Id, upload: Id, newest: Option<Id>)
    | CreateUpload(sub: Id, id: Id, now: Time)
    | UploadChunk(sub: Id, id: Id, offset: int, delivery: U.Delivery, now: Time)
    | ReapUploads(now: Time)

  datatype Reply = Refused | Done | CertificatesRevoked(count: nat) | Recorded(signature: Signature)

  // ---- accounts ----

  function AddAccount(db: Db, id: Id, a: Account): (r: (Db, Reply)) {
    if a.email in db.emails then (db, Refused)
    else (db.(accounts := db.accounts[id := a], emails := db.emails[a.email := id], used := db.used + {id}), Done)
  }

  function WithStatus(db: Db, id: Id, status: AccountStatus): (db': Db) {
    if id in db.accounts then db.(accounts := db.accounts[id := db.accounts[id].(status := status)]) else db
  }

  function WithoutAccount(db: Db, id: Id): (db': Db) {
    if id in db.accounts then
      db.(accounts := db.accounts - {id}, emails := db.emails - {db.accounts[id].email})
    else db
  }

  /** `clientTarget`: the account exists and is an end user's. */
  predicate ClientTarget(db: Db, id: Id) {
    id in db.accounts && db.accounts[id].role == RoleUser
  }

  predicate IsAdmin(db: Db, id: Id) {
    id in db.accounts && db.accounts[id].role == RoleAdmin
  }

  /** The active certificates of an account. */
  function ActiveOf(db: Db, account: Id): (ids: set<Id>) {
    set k | k in db.certificates && db.certificates[k].account == account && db.certificates[k].status == CertActive
  }

  /** Revoking the certificates in `ids` and marking the account's devices that carry them as lost. */
  function RevokedBy(db: Db, account: Id, ids: set<Id>): (db': Db) {
    db.(certificates := map k | k in db.certificates ::
                          if k in ids then db.certificates[k].(status := CertRevoked) else db.certificates[k],
        devices := map d | d in db.devices ::
                     if db.devices[d].account == account && Carries(db, ids, d)
                     then db.devices[d].(status := DeviceLost) else db.devices[d])
  }

  predicate Carries(db: Db, ids: set<Id>, device: Id) {
    exists k :: k in ids && k in db.certificates && db.certificates[k].device == device
  }

  /** The CA ledger after the cascade's `revoke` calls, in listing order. */
  function LedgerAfter(l: CA.Ledger, db: Db, list: seq<Id>, reached: set<Id>, now: Time): (l': CA.Ledger) {
    if list == [] then l
    else
      var before := LedgerAfter(l, db, list[..|list| - 1], reached, now);
      var id := list[|list| - 1];
      if id in reached && id in db.certificates && db.certificates[id].status == CertActive
      then CA.RevokeStep(before, db.certificates[id].serial, CA.CESSATION, now, true).0
      else before
  }

  /** The CA ledger and the server's CRL once the cascade is over. */
  function Published(l: CA.Ledger, crl: CrlFile, ca: CaOutcome, any: bool, now: Time): (r: (CA.Ledger, CrlFile))
    requires CA.LedgerOk(l)
  {
    if ca.NoCa? || !any || ca.publish.PublishFailed? then (l, crl)
    else
      (l.(crlNumber := l.crlNumber + 1),
       if ca.publish.PublishDelivered? then CrlFile(CA.CrlOf(l, now, CA.SEVEN_DAYS)) else crl)
  }

  /** `disableCascade` */
  function Cascade(s: State, account: Id, run: CascadeRun): (r: (State, nat))
    requires CA.LedgerOk(s.ledger) && run.now != 0
    ensures CA.LedgerOk(r.0.ledger)
  {
    var active := ActiveOf(s.db, account);
    LedgerAfterOk(s.ledger, s.db, run.list, if run.ca.NoCa? then {} else run.ca.reached, run.now);
    var revoked := LedgerAfter(s.ledger, s.db, run.list, if run.ca.NoCa? then {} else run.ca.reached, run.now);
    var (ledger, crl) := Published(revoked, s.crl, run.ca, active != {}, run.now);
    (s.(db := RevokedBy(s.db, account, active), ledger := ledger, crl := crl), |active|)
  }

  lemma {:induction false} LedgerAfterOk(l: CA.Ledger, db: Db, list: seq<Id>, reached: set<Id>, now: Time)
    requires CA.LedgerOk(l) && now != 0
    ensures CA.LedgerOk(LedgerAfter(l, db, list, reached, now))
  {
    if list != [] { LedgerAfterOk(l, db, list[..|list| - 1], reached, now); }
  }

  function Disable(s: State, id: Id, run: CascadeRun): (r: (State, Reply))
    requires CA.LedgerOk(s.ledger) && run.now != 0
    ensures CA.LedgerOk(r.0.ledger)
  {
    if !ClientTarget(s.db, id) then (s, Refused)
    else
      var (s', n) := Cascade(s.(db := WithStatus(s.db, id, AccountDisabled)), id, run);
      (s', CertificatesRevoked(n))
  }

  function Delete(s: State, id: Id, run: CascadeRun, erased: bool): (r: (State, Reply))
    requires CA.LedgerOk(s.ledger) && run.now != 0
    ensures CA.LedgerOk(r.0.ledger)
  {
    var (s', reply) := Disable(s, id, run);
    (if reply.Refused? || !erased then s' else s'.(db := WithoutAccount(s'.db, id)), reply)
  }

  // ---- devices and enrolment ----

  function WithDevice(db: Db, sub: Id, device: Id): (db': Db) {
    db.(devices := db.devices[device := Device(sub, DeviceActive)], used := db.used + {device})
  }

  function WithLost(db: Db, device: Id): (db': Db)
    requires device in db.devices
  {
    db.(devices := db.devices[device := db.devices[device].(status := DeviceLost)])
  }

  function WithApproved(db: Db, enrollment: Id): (db': Db)
    requires enrollment in db.enrollments
  {
    db.(enrollments := db.enrollments[enrollment := db.enrollments[enrollment].(status := EnrollmentApproved)])
  }

  function WithRevoked(db: Db, certificate: Id): (db': Db)
    requires certificate in db.certificates
  {
    db.(certificates := db.certificates[certificate := db.certificates[certificate].(status := CertRevoked)])
  }

  predicate OwnsDevice(db: Db, sub: Id, device: Id) {
    device in db.devices && db.devices[device].account == sub
  }

  /** The certificate `bindIssuedCert` would store, None when a check refuses it. */
  function BoundCertificate(w: World, db: Db, enrollment: Id, issue: Issue): (r: Option<Certificate>)
    requires enrollment in db.enrollments
  {
    var e := db.enrollments[enrollment];
    match (w.parseCertificate(issue.pem), w.parseCsr(e.csr))
    case (Some(x), Some(key)) =>
      if && x.mldsa && x.notBefore <= issue.at <= x.notAfter && !x.isCA && x.documentSigning
         && w.chains(x, issue.at) && x.key == key
      then Some(Certificate(enrollment, e.device, e.account, Hex.Print(x.serial), x.fingerprint, issue.pem, x.notBefore, CertActive))
      else None
    case _ => None
  }

  function Bind(w: World, db: Db, enrollment: Id, issue: Issue): (r: (Db, Reply))
    requires enrollment in db.enrollments
  {
    match BoundCertificate(w, db, enrollment, issue)
    case None => (db, Refused)
    case Some(c) => (WithCertificate(db, enrollment, issue.certificate, c), Done)
  }

  function WithCertificate(db: Db, enrollment: Id, id: Id, c: Certificate): (db': Db)
    requires enrollment in db.enrollments
  {
    db.(certificates := db.certificates[id := c],
        enrollments := db.enrollments[enrollment := db.enrollments[enrollment].(status := EnrollmentIssued)],
        used := db.used + {id})
  }

  function WithReservation(db: Db, id: Id, r: Reservation): (db': Db) {
    db.(reservations := db.reservations[id := r], used := db.used + {id})
  }

  function EnrollCsr(w: World, db: Db, sub: Id, device: Id, csr: Bytes, enrollment: Id, online: Option<Issue>): (r: (Db, Reply)) {
    if !OwnsDevice(db, sub, device) || w.parseCsr(csr).None? then (db, Refused)
    else
      var db1 := db.(enrollments := db.enrollments[enrollment := Enrollment(device, sub, csr, EnrollmentSubmitted)],
                     used := db.used + {enrollment});
      if online.Some? && sub in db1.accounts && db1.accounts[sub].status == AccountActive
      then (Bind(w, db1, enrollment, online.value).0, Done)
      else (db1, Done)
  }

  // ---- reservation and submission ----

  /** The newest certificate found for a device is active. */
  predicate ActiveCertificate(db: Db, newest: Option<Id>) {
    newest.Some? && newest.value in db.certificates && db.certificates[newest.value].status == CertActive
  }

  function Reserving(db: Db, sub: Id, device: Id, sha512: string, newest: Option<Id>, publicId: Id): (r: (Db, Reply)) {
    if device == "" || !OwnsDevice(db, sub, device) || db.devices[device].status != DeviceActive || !ActiveCertificate(db, newest)
    then (db, Refused)
    else (WithReservation(db, publicId, Reservation(sub, device, sha512, ReservationReserved)), Done)
  }

  /** `signedInput`: the document and the size the handler goes by. */
  function SignedInput(cfg: Tiers.Limits, uploads: U.Manager, sub: Id, input: Input): (r: Option<(Bytes, nat)>) {
    match input
    case RawBody(body) => if |body| > cfg.upload then None else Some((body, |body|))
    case FromUpload(id) =>
      if U.Gettable(uploads, id, sub) && id in uploads.files then Some((uploads.files[id], uploads.sessions[id].size)) else None
  }

  const PDF_MAGIC: Bytes := [37, 80, 68, 70, 45]

  datatype VerifiedInfo = VerifiedInfo(certificate: Id, serial: string, fingerprint: string)

  /** The document's only signature, when it is sound and names the reservation. */
  function SignerOf(w: World, crl: CrlFile, publicId: Id, pdf: Bytes, at: Time): (r: Option<V.SignatureResult>) {
    match V.Verdict(w, pdf, V.Options(crl, true, at))
    case None => None
    case Some(vr) =>
      if |vr.signatures| != 1 then None
      else
        var sig := vr.signatures[0];
        if !vr.valid || !sig.valid || !sig.mldsa || !sig.trustedChain || sig.revoked || sig.PublicId() != publicId then None
        else Some(sig)
  }

  /** The certificate row a serial lookup finds, when it is active and belongs to the reservation. */
  function RowFor(db: Db, res: Reservation, sig: V.SignatureResult, index: map<string, Id>): (r: Option<VerifiedInfo>) {
    if sig.serial !in index || index[sig.serial] !in db.certificates then None
    else
      var id := index[sig.serial];
      var cert := db.certificates[id];
      if cert.account != res.account || cert.device != res.device || cert.status != CertActive || cert.fingerprint != sig.fingerprint
      then None
      else Some(VerifiedInfo(id, cert.serial, cert.fingerprint))
  }

  predicate HasMagic(pdf: Bytes) {
    |pdf| >= 5 && pdf[..5] == PDF_MAGIC
  }

  predicate OnActiveDevice(db: Db, res: Reservation) {
    res.device in db.devices && db.devices[res.device].status == DeviceActive
  }

  /** `strictVerify`: None is a rejection. */
  function StrictVerify(w: World, s: State, publicId: Id, res: Reservation, pdf: Bytes, at: Time, index: map<string, Id>): (r: Option<VerifiedInfo>) {
    if !HasMagic(pdf) || publicId in s.db.signatures || !OnActiveDevice(s.db, res) then None
    else
      match SignerOf(w, s.crl, publicId, pdf, at)
      case None => None
      case Some(sig) => RowFor(s.db, res, sig, index)
  }

  /** Writing the object, then the record, then the reservation's status. */
  function Record(s: State, publicId: Id, key: string, body: Bytes, sig: Signature, input: Input): (r: (State, Reply))
    requires publicId in s.db.reservations
  {
    var db1 := s.db.(objects := s.db.objects[key := body]);
    if publicId in db1.signatures then (s.(db := db1), Refused)
    else
      var db2 := db1.(signatures := db1.signatures[publicId := sig],
                      reservations := db1.reservations[publicId := db1.reservations[publicId].(status := ReservationAccepted)]);
      (s.(db := db2, uploads := if input.FromUpload? then U.Discarded(s.uploads, input.id) else s.uploads), Recorded(sig))
  }

  /** `hSubmitDocument` */
  function Submitting(w: World, cfg: Tiers.Limits, s: State, sub: Id, publicId: Id, input: Input,
                      year: nat, month: nat, at: Time, index: map<string, Id>): (r: (State, Reply))
  {
    if publicId !in s.db.reservations || s.db.reservations[publicId].account != sub then (s, Refused)
    else
      var res := s.db.reservations[publicId];
      if res.status == ReservationAccepted && publicId in s.db.signatures then (s, Recorded(s.db.signatures[publicId]))
      else
        match SignedInput(cfg, s.uploads, sub, input)
        case None => (s, Refused)
        case Some((body, size)) =>
          var key := K.Key(year, month, publicId);
          if size <= cfg.verify then
            match StrictVerify(w, s, publicId, res, body, at, index)
            case None => (s, Refused)
            case Some(info) =>
              Record(s, publicId, key, body,
                     Signature(res.account, res.device, info.certificate, info.serial, info.fingerprint, res.originalSha512,
                               w.sha512(body), key, |body|, VerificationAccepted), input)
          else
            Record(s, publicId, key, body,
                   Signature(res.account, res.device, "", "", "", res.originalSha512,
                             w.sha512(body), key, size, VerificationStoredOnly), input)
  }

  /** `hStamp`, as far as it changes state: a used upload is discarded. */
  function Stamping(cfg: Tiers.Limits, s: State, sub: Id, publicId: Id, upload: Id, newest: Option<Id>): (r: (State, Reply)) {
    if || publicId !in s.db.reservations || s.db.reservations[publicId].account != sub
       || s.db.reservations[publicId].status == ReservationAccepted
       || !ActiveCertificate(s.db, newest) || sub !in s.db.accounts
       || !U.Gettable(s.uploads, upload, sub) || upload !in s.uploads.files
       || s.uploads.sessions[upload].size > cfg.stamp
    then (s, Refused)
    else (s.(uploads := U.Discarded(s.uploads, upload)), Done)
  }

  // ---- the machine ----

  ghost predicate LegalCascade(db: Db, account: Id, run: CascadeRun) {
    run.now != 0 && AccountListing(db.certificates, account, run.list)
  }

  /** New ids are fresh, lookups answer from the store, and the clock is not at the zero time. */
  ghost predicate Legal(s: State, e: Event) {
    var db := s.db;
    match e
    case BootstrapSuperAdmin(id, _) => id !in db.used
    case Register(id, _) => id !in db.used
    case CreateAdmin(id, _) => id !in db.used
    case DisableAccount(id, run) => LegalCascade(db, id, run)
    case DeleteAccount(id, run, _) => LegalCascade(db, id, run)
    case CreateDevice(_, d) => d !in db.used
    case SubmitCsr(_, _, _, enr, online) =>
      enr !in db.used && (online.Some? ==> online.value.certificate !in db.used && online.value.certificate != enr)
    case IssueCertificate(_, issue) => issue.certificate !in db.used
    case Reserve(_, d, _, newest, pid) => pid != "" && pid !in db.used && NewestOfDevice(db.certificates, d, newest)
    case Submit(_, _, _, _, _, _, index) => SerialIndex(db.certificates, index)
    case Stamp(_, pid, _, newest) => pid in db.reservations ==> NewestOfDevice(db.certificates, db.reservations[pid].device, newest)
    case CreateUpload(_, id, _) => id !in s.uploads.sessions
    case _ => true
  }

  function OnDb(s: State, r: (Db, Reply)): (t: (State, Reply)) {
    (s.(db := r.0), r.1)
  }

  predicate OnAccounts(e: Event) {
    || e.BootstrapSuperAdmin? || e.Register? || e.CreateAdmin? || e.SetAdminStatus? || e.DeleteAdmin?
    || e.ApproveAccount? || e.EnableAccount? || e.DisableAccount? || e.DeleteAccount?
  }

  predicate OnEnrolment(e: Event) {
    || e.CreateDevice? || e.ReportLost? || e.SubmitCsr? || e.ApproveEnrollment? || e.IssueCertificate?
    || e.RevokeCertificate? || e.ImportCrl?
  }

  ghost function StepAccounts(s: State, e: Event): (r: (State, Reply))
    requires CA.LedgerOk(s.ledger) && Legal(s, e) && OnAccounts(e)
    ensures CA.LedgerOk(r.0.ledger)
  {
    var db := s.db;
    match e
    case BootstrapSuperAdmin(id, email) =>
      if exists a :: a in db.accounts && db.accounts[a].role == RoleSuperAdmin then (s, Refused)
      else OnDb(s, AddAccount(db, id, Account(email, RoleSuperAdmin, AccountActive)))
    case Register(id, email) => OnDb(s, AddAccount(db, id, Account(email, RoleUser, AccountPending)))
    case CreateAdmin(id, email) => OnDb(s, AddAccount(db, id, Account(email, RoleAdmin, AccountActive)))
    case SetAdminStatus(id, status) =>
      if IsAdmin(db, id) && status != AccountPending then (s.(db := WithStatus(db, id, status)), Done) else (s, Refused)
    case DeleteAdmin(id, erased) =>
      if !IsAdmin(db, id) then (s, Refused)
      else (s.(db := if erased then WithoutAccount(db, id) else WithStatus(db, id, AccountDisabled)), Done)
    case ApproveAccount(id) =>
      if ClientTarget(db, id) then (s.(db := WithStatus(db, id, AccountActive)), Done) else (s, Refused)
    case EnableAccount(id) =>
      if ClientTarget(db, id) then (s.(db := WithStatus(db, id, AccountActive)), Done) else (s, Refused)
    case DisableAccount(id, run) => Disable(s, id, run)
    case DeleteAccount(id, run, erased) => Delete(s, id, run, erased)
  }

  ghost function StepEnrolment(w: World, s: State, e: Event): (r: (State, Reply))
    requires OnEnrolment(e)
    ensures r.0.ledger == s.ledger
  {
    var db := s.db;
    match e
    case CreateDevice(sub, d) => (s.(db := WithDevice(db, sub, d)), Done)
    case ReportLost(sub, d) => if OwnsDevice(db, sub, d) then (s.(db := WithLost(db, d)), Done) else (s, Refused)
    case SubmitCsr(sub, d, csr, enr, online) => OnDb(s, EnrollCsr(w, db, sub, d, csr, enr, online))
    case ApproveEnrollment(enr) =>
      if enr in db.enrollments then (s.(db := WithApproved(db, enr)), Done) else (s, Refused)
    case IssueCertificate(enr, issue) =>
      if enr in db.enrollments then OnDb(s, Bind(w, db, enr, issue)) else (s, Refused)
    case RevokeCertificate(id) =>
      if id in db.certificates then (s.(db := WithRevoked(db, id)), Done) else (s, Refused)
    case ImportCrl(file) => if file.CrlFile? then (s.(crl := file), Done) else (s, Refused)
  }

  ghost function StepSigning(w: World, cfg: Tiers.Limits, s: State, e: Event): (r: (State, Reply))
    requires !OnAccounts(e) && !OnEnrolment(e)
    ensures r.0.ledger == s.ledger
  {
    match e
    case Reserve(sub, d, sha, newest, pid) => OnDb(s, Reserving(s.db, sub, d, sha, newest, pid))
    case Submit(sub, pid, input, y, m, at, index) => Submitting(w, cfg, s, sub, pid, input, y, m, at, index)
    case Stamp(sub, pid, upload, newest) => Stamping(cfg, s, sub, pid, upload, newest)
    case CreateUpload(sub, id, now) => (s.(uploads := U.Created(s.uploads, id, sub, now)), Done)
    case UploadChunk(sub, id, offset, d, now) =>
      (s.(uploads := U.ChunkHandled(s.uploads, id, sub, offset, cfg.upload, d, now).0), Done)
    case ReapUploads(now) => (s.(uploads := U.Reaped(s.uploads, now)), Done)
  }

  ghost function Step(w: World, cfg: Tiers.Limits, s: State, e: Event): (r: (State, Reply))
    requires CA.LedgerOk(s.ledger) && Legal(s, e)
    ensures CA.LedgerOk(r.0.ledger)
  {
    if OnAccounts(e) then StepAccounts(s, e)
    else if OnEnrolment(e) then StepEnrolment(w, s, e)
    else StepSigning(w, cfg, s, e)
  }
}
