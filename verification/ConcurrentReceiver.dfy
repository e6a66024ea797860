/** The receiver with submissions in flight: every store call of a submit handler is a step of its own,
    and any other handler may run between two of them. */
module ConcurrentReceiver {
  import opened Basics
  import opened Pki
  import opened Store
  import opened Receiver
  import opened ReceiverInvariant
  import opened ReceiverTheorems
  import Hex
  import CA = CaLedger
  import V = Verification
  import U = Uploads
  import K = ObjectKey
  import Tiers

  type ThreadId = nat

  /** What a submit handler was asked, and the reservation it read. */
  datatype Job = Job(p: Id, sub: Id, res: Reservation, input: Input)

  /** Where a submit handler stands between two store calls. */
  datatype Stage =
    | Loaded(job: Job)                                                  // reservation read, owner checked
    | Opening(job: Job)                                                 // no record to return
    | Holding(job: Job, held: Bytes, size: nat)                         // input open, its size taken
    | Reading(job: Job, body: Bytes, key: string)                       // verified tier, document read
    | Unrecorded(job: Job, body: Bytes, key: string)                    // no record seen
    | DeviceSeen(job: Job, body: Bytes, key: string)                    // device seen active
    | Verified(job: Job, body: Bytes, key: string, signer: V.SignatureResult)   // signature sound against the CRL of that moment
    | Writing(job: Job, sig: Signature, body: Bytes)                    // certificate seen active, or store-only
    | Creating(job: Job, sig: Signature, body: Bytes)                   // object written
    | Marking(job: Job, sig: Signature)                                 // record created
    | Discarding(job: Job)                                              // reservation marked

  datatype System = System(s: State, threads: map<ThreadId, Stage>)

  datatype Call =
    | Handler(e: Event)                                                 // any other handler
    | Load(t: ThreadId, sub: Id, p: Id, input: Input)
    | Complete(t: ThreadId)
    | Open(t: ThreadId)
    | Read(t: ThreadId, appended: Bytes, year: nat, month: nat)
    | CheckRecord(t: ThreadId)
    | CheckDevice(t: ThreadId)
    | CheckDocument(t: ThreadId, at: Time)
    | Lookup(t: ThreadId, index: map<string, Id>)
    | Put(t: ThreadId)
    | Create(t: ThreadId)
    | Mark(t: ThreadId)
    | Discard(t: ThreadId)

  ghost predicate Legal(y: System, c: Call) {
    match c
    case Handler(e) => !e.Submit? && Receiver.Legal(y.s, e)
    case Load(t, _, _, _) => t !in y.threads
    case Complete(t) => t in y.threads && y.threads[t].Loaded?
    case Open(t) => t in y.threads && y.threads[t].Opening?
    // a request body is read whole; an upload may have grown since it was opened
    case Read(t, appended, _, _) => t in y.threads && y.threads[t].Holding? && (y.threads[t].job.input.RawBody? ==> appended == [])
    case CheckRecord(t) => t in y.threads && y.threads[t].Reading?
    case CheckDevice(t) => t in y.threads && y.threads[t].Unrecorded?
    case CheckDocument(t, _) => t in y.threads && y.threads[t].DeviceSeen?
    case Lookup(t, index) => t in y.threads && y.threads[t].Verified? && SerialIndex(y.s.db.certificates, index)
    case Put(t) => t in y.threads && y.threads[t].Writing?
    case Create(t) => t in y.threads && y.threads[t].Creating?
    case Mark(t) => t in y.threads && y.threads[t].Marking?
    case Discard(t) => t in y.threads && y.threads[t].Discarding?
  }

  function Moved(y: System, t: ThreadId, at: Stage): (y': System) {
    y.(threads := y.threads[t := at])
  }

  function Gone(y: System, t: ThreadId): (y': System) {
    y.(threads := y.threads - {t})
  }

  /** The steps before the outcome is decided: they only read. */
  function Look(w: World, cfg: Tiers.Limits, y: System, c: Call): (y': System)
    requires Looks(c) && c.t in y.threads
    requires (c.CheckRecord? ==> y.threads[c.t].Reading?) && (c.CheckDevice? ==> y.threads[c.t].Unrecorded?)
    requires c.CheckDocument? ==> y.threads[c.t].DeviceSeen?
  {
    var at := y.threads[c.t];
    match c
    case Complete(t) =>
      if at.job.res.status == ReservationAccepted && at.job.p in y.s.db.signatures then Gone(y, t) else Moved(y, t, Opening(at.job))
    case Open(t) =>
      (match SignedInput(cfg, y.s.uploads, at.job.sub, at.job.input)
       case None => Gone(y, t)
       case Some((held, size)) => Moved(y, t, Holding(at.job, held, size)))
    case CheckRecord(t) =>
      if HasMagic(at.body) && at.job.p !in y.s.db.signatures then Moved(y, t, Unrecorded(at.job, at.body, at.key)) else Gone(y, t)
    case CheckDevice(t) =>
      if OnActiveDevice(y.s.db, at.job.res) then Moved(y, t, DeviceSeen(at.job, at.body, at.key)) else Gone(y, t)
    case CheckDocument(t, now) =>
      (match SignerOf(w, y.s.crl, at.job.p, at.body, now)
       case None => Gone(y, t)
       case Some(signer) => Moved(y, t, Verified(at.job, at.body, at.key, signer)))
  }

  function StoredOnly(w: World, job: Job, body: Bytes, size: nat, key: string): (sig: Signature) {
    Signature(job.res.account, job.res.device, "", "", "", job.res.originalSha512, w.sha512(body), key, size, VerificationStoredOnly)
  }

  function Accepted(w: World, job: Job, body: Bytes, info: VerifiedInfo, key: string): (sig: Signature) {
    Signature(job.res.account, job.res.device, info.certificate, info.serial, info.fingerprint, job.res.originalSha512,
              w.sha512(body), key, |body|, VerificationAccepted)
  }

  /** The steps that read the reservation, the document, and the certificate's row. */
  function Decide(w: World, cfg: Tiers.Limits, y: System, c: Call): (y': System)
    requires c.Load? || c.Read? || c.Lookup?
    requires !c.Load? ==> c.t in y.threads
    requires (c.Read? ==> y.threads[c.t].Holding?) && (c.Lookup? ==> y.threads[c.t].Verified?)
  {
    match c
    case Load(t, sub, p, input) =>
      if p in y.s.db.reservations && y.s.db.reservations[p].account == sub
      then Moved(y, t, Loaded(Job(p, sub, y.s.db.reservations[p], input))) else y
    case Read(t, appended, year, month) =>
      var at := y.threads[t];
      var body, key := at.held + appended, K.Key(year, month, at.job.p);
      if at.size <= cfg.verify then Moved(y, t, Reading(at.job, body, key))
      else Moved(y, t, Writing(at.job, StoredOnly(w, at.job, body, at.size, key), body))
    case Lookup(t, index) =>
      var at := y.threads[t];
      (match RowFor(y.s.db, at.job.res, at.signer, index)
       case None => Gone(y, t)
       case Some(info) => Moved(y, t, Writing(at.job, Accepted(w, at.job, at.body, info, at.key), at.body)))
  }

  /** The steps that write. */
  function Write(y: System, c: Call): (y': System)
    requires Writes(c) && c.t in y.threads
    requires (c.Put? ==> y.threads[c.t].Writing?) && (c.Create? ==> y.threads[c.t].Creating?)
  {
    var at := y.threads[c.t];
    match c
    case Put(t) =>
      var db := y.s.db.(objects := y.s.db.objects[at.sig.objectKey := at.body]);
      Moved(y.(s := y.s.(db := db)), t, Creating(at.job, at.sig, at.body))
    case Create(t) =>
      if at.job.p in y.s.db.signatures then Gone(y, t)
      else
        var db := y.s.db.(signatures := y.s.db.signatures[at.job.p := at.sig]);
        Moved(y.(s := y.s.(db := db)), t, Marking(at.job, at.sig))
    case Mark(t) =>
      Moved(y.(s := y.s.(db := MarkedAccepted(y.s.db, at.job.p))), t, Discarding(at.job))
    case Discard(t) =>
      var input := at.job.input;
      Gone(y.(s := y.s.(uploads := if input.FromUpload? then U.Discarded(y.s.uploads, input.id) else y.s.uploads)), t)
  }

  predicate Looks(c: Call) {
    c.Complete? || c.Open? || c.CheckRecord? || c.CheckDevice? || c.CheckDocument?
  }

  predicate Writes(c: Call) {
    c.Put? || c.Create? || c.Mark? || c.Discard?
  }

  ghost function Next(w: World, cfg: Tiers.Limits, y: System, c: Call): (y': System)
    requires CA.LedgerOk(y.s.ledger) && Legal(y, c)
    ensures CA.LedgerOk(y'.s.ledger)
  {
    if c.Handler? then y.(s := Step(w, cfg, y.s, c.e).0)
    else if Looks(c) then Look(w, cfg, y, c)
    else if Writes(c) then Write(y, c)
    else Decide(w, cfg, y, c)
  }

  function MarkedAccepted(db: Db, p: Id): (db': Db) {
    if p in db.reservations
    then db.(reservations := db.reservations[p := db.reservations[p].(status := ReservationAccepted)]) else db
  }

  // ---- the other handlers do not look at records ----

  /** The database without what submissions write. */
  function Erased(db: Db): (db': Db) {
    db.(signatures := map[], objects := map[], reservations := Reopened(db.reservations))
  }

  function Reopened(rs: map<Id, Reservation>): (rs': map<Id, Reservation>)
    ensures rs'.Keys == rs.Keys
  {
    map p | p in rs :: rs[p].(status := ReservationReserved)
  }

  function ErasedState(s: State): (s': State) {
    s.(db := Erased(s.db))
  }

  lemma LegalErased(s: State, e: Event)
    requires Receiver.Legal(s, e) && !e.Submit?
    ensures Receiver.Legal(ErasedState(s), e)
  {
    hide SerialIndex, NewestOfDevice, AccountListing;
  }

  lemma DisableErased(s: State, id: Id, run: CascadeRun)
    requires CA.LedgerOk(s.ledger) && run.now != 0
    ensures Disable(ErasedState(s), id, run).0.db == Erased(Disable(s, id, run).0.db)
    ensures Disable(ErasedState(s), id, run).1 == Disable(s, id, run).1
  {
    hide LedgerAfter, Published, CA.LedgerOk;
    var a, b := WithStatus(s.db, id, AccountDisabled), WithStatus(Erased(s.db), id, AccountDisabled);
    assert b == Erased(a) && ActiveOf(b, id) == ActiveOf(a, id);
    RevokedByErased(a, id, ActiveOf(a, id));
  }

  lemma RevokedByErased(db: Db, account: Id, ids: set<Id>)
    ensures RevokedBy(Erased(db), account, ids) == Erased(RevokedBy(db, account, ids))
  {
    forall d ensures Carries(Erased(db), ids, d) == Carries(db, ids, d) {}
    hide Carries;
    var a, b := RevokedBy(Erased(db), account, ids), Erased(RevokedBy(db, account, ids));
    assert a.certificates == b.certificates && a.devices == b.devices;
  }

  lemma RowsErased(db: Db, id: Id, acc: Account, status: AccountStatus)
    ensures AddAccount(Erased(db), id, acc).0 == Erased(AddAccount(db, id, acc).0)
    ensures WithStatus(Erased(db), id, status) == Erased(WithStatus(db, id, status))
    ensures WithoutAccount(Erased(db), id) == Erased(WithoutAccount(db, id))
  {
    AddErased(db, id, acc);
    StatusErased(db, id, status);
    RemovalErased(db, id);
    hide *;
  }

  lemma AddErased(db: Db, id: Id, acc: Account)
    ensures AddAccount(Erased(db), id, acc).0 == Erased(AddAccount(db, id, acc).0)
  {
    hide Reopened;
  }

  lemma StatusErased(db: Db, id: Id, status: AccountStatus)
    ensures WithStatus(Erased(db), id, status) == Erased(WithStatus(db, id, status))
  {
    hide Reopened;
  }

  lemma RemovalErased(db: Db, id: Id)
    ensures WithoutAccount(Erased(db), id) == Erased(WithoutAccount(db, id))
  {
    hide Reopened;
  }

  lemma SameRows(db: Db)
    ensures var e := Erased(db);
            && e.accounts == db.accounts && e.emails == db.emails && e.devices == db.devices && e.enrollments == db.enrollments
            && e.certificates == db.certificates && e.used == db.used && e.reservations.Keys == db.reservations.Keys
  {
  }

  lemma AccountsErased(s: State, e: Event)
    requires CA.LedgerOk(s.ledger) && Receiver.Legal(s, e) && Receiver.Legal(ErasedState(s), e) && OnAccounts(e)
    ensures StepAccounts(ErasedState(s), e).0.db == Erased(StepAccounts(s, e).0.db)
  {
    hide Disable, CA.LedgerOk, AccountListing, Erased, AddAccount, WithStatus, WithoutAccount;
    SameRows(s.db);
    match e
    case DisableAccount(id, run) => DisableErased(s, id, run);
    case DeleteAccount(id, run, _) =>
      DisableErased(s, id, run);
      RowsErased(Disable(s, id, run).0.db, id, Account("", RoleUser, AccountPending), AccountPending);
    case BootstrapSuperAdmin(id, email) => RowsErased(s.db, id, Account(email, RoleSuperAdmin, AccountActive), AccountActive);
    case Register(id, email) => RowsErased(s.db, id, Account(email, RoleUser, AccountPending), AccountActive);
    case CreateAdmin(id, email) => RowsErased(s.db, id, Account(email, RoleAdmin, AccountActive), AccountActive);
    case SetAdminStatus(id, status) => RowsErased(s.db, id, Account("", RoleUser, AccountPending), status);
    case DeleteAdmin(id, _) => RowsErased(s.db, id, Account("", RoleUser, AccountPending), AccountDisabled);
    case ApproveAccount(id) => RowsErased(s.db, id, Account("", RoleUser, AccountPending), AccountActive);
    case EnableAccount(id) => RowsErased(s.db, id, Account("", RoleUser, AccountPending), AccountActive);
  }

  lemma BindErased(w: World, db: Db, enrollment: Id, issue: Issue)
    requires enrollment in db.enrollments
    ensures Bind(w, Erased(db), enrollment, issue).0 == Erased(Bind(w, db, enrollment, issue).0)
  {
    hide Hex.Print;
    assert BoundCertificate(w, Erased(db), enrollment, issue) == BoundCertificate(w, db, enrollment, issue);
    hide BoundCertificate;
  }

  lemma EnrollErased(w: World, db: Db, sub: Id, device: Id, csr: Bytes, enrollment: Id, online: Option<Issue>)
    ensures EnrollCsr(w, Erased(db), sub, device, csr, enrollment, online).0 == Erased(EnrollCsr(w, db, sub, device, csr, enrollment, online).0)
  {
    hide Bind;
    var db1 := db.(enrollments := db.enrollments[enrollment := Enrollment(device, sub, csr, EnrollmentSubmitted)], used := db.used + {enrollment});
    if online.Some? { BindErased(w, db1, enrollment, online.value); }
  }

  lemma EnrolmentErased(w: World, s: State, e: Event)
    requires OnEnrolment(e)
    ensures StepEnrolment(w, ErasedState(s), e).0.db == Erased(StepEnrolment(w, s, e).0.db)
  {
    hide EnrollCsr, Bind, Erased, WithDevice, WithLost, WithApproved, WithRevoked;
    SameRows(s.db);
    match e
    case SubmitCsr(sub, d, csr, enr, online) => EnrollErased(w, s.db, sub, d, csr, enr, online);
    case IssueCertificate(enr, issue) => if enr in s.db.enrollments { BindErased(w, s.db, enr, issue); }
    case CreateDevice(sub, d) => DeviceErased(s.db, sub, d);
    case ReportLost(sub, d) => if OwnsDevice(s.db, sub, d) { LostErased(s.db, d); }
    case ApproveEnrollment(enr) => if enr in s.db.enrollments { ApprovalErased(s.db, enr); }
    case RevokeCertificate(c) => if c in s.db.certificates { RevocationErased(s.db, c); }
    case ImportCrl(_) =>
  }

  lemma DeviceErased(db: Db, sub: Id, d: Id)
    ensures WithDevice(Erased(db), sub, d) == Erased(WithDevice(db, sub, d))
  {
    hide Reopened;
  }

  lemma LostErased(db: Db, d: Id)
    requires d in db.devices
    ensures WithLost(Erased(db), d) == Erased(WithLost(db, d))
  {
    hide Reopened;
  }

  lemma ApprovalErased(db: Db, e: Id)
    requires e in db.enrollments
    ensures WithApproved(Erased(db), e) == Erased(WithApproved(db, e))
  {
    hide Reopened;
  }

  lemma RevocationErased(db: Db, c: Id)
    requires c in db.certificates
    ensures WithRevoked(Erased(db), c) == Erased(WithRevoked(db, c))
  {
    hide Reopened;
  }

  lemma SigningErased(w: World, cfg: Tiers.Limits, s: State, e: Event)
    requires !OnAccounts(e) && !OnEnrolment(e) && !e.Submit?
    ensures StepSigning(w, cfg, ErasedState(s), e).0.db == Erased(StepSigning(w, cfg, s, e).0.db)
  {
    hide U.ChunkHandled, U.Reaped, U.Created;
    if e.Reserve? {
      var a := Reserving(Erased(s.db), e.sub, e.device, e.sha512, e.newest, e.publicId).0;
      var b := Erased(Reserving(s.db, e.sub, e.device, e.sha512, e.newest, e.publicId).0);
      assert a.reservations == b.reservations;
    }
  }

  lemma HandlerErased(w: World, cfg: Tiers.Limits, s: State, e: Event)
    requires CA.LedgerOk(s.ledger) && Receiver.Legal(s, e) && !e.Submit?
    ensures Receiver.Legal(ErasedState(s), e)
    ensures Step(w, cfg, ErasedState(s), e).0.db == Erased(Step(w, cfg, s, e).0.db)
  {
    hide StepAccounts, StepEnrolment, StepSigning, CA.LedgerOk, Receiver.Legal, Erased;
    LegalErased(s, e);
    if OnAccounts(e) { AccountsErased(s, e); } else if OnEnrolment(e) { EnrolmentErased(w, s, e); } else { SigningErased(w, cfg, s, e); }
  }

  // ---- what every interleaving keeps ----

  /** The record's hash is that of a document whose only signature was made with the recorded
      certificate, for this reservation. */
  ghost predicate Vouched(w: World, p: Id, sig: Signature) {
    exists body, at ::
      w.sha512(body) == sig.signedSha512 && |body| == sig.size && SoleSigner(w, body, at, p, sig.serial, sig.fingerprint)
  }

  ghost predicate DbSound(w: World, db: Db) {
    && Known(db) && EmailsIndexed(db) && Enrolled(w, db) && Bound(w, db) && Reserved(db) && Traced(db)
    && (forall p :: p in db.signatures && db.signatures[p].verification == VerificationAccepted ==> Vouched(w, p, db.signatures[p]))
    && (forall p :: p in db.reservations && db.reservations[p].status == ReservationAccepted ==> p in db.signatures)
  }

  predicate JobOk(db: Db, job: Job) {
    && job.p in db.reservations
    && db.reservations[job.p].account == job.res.account && db.reservations[job.p].device == job.res.device
    && db.reservations[job.p].originalSha512 == job.res.originalSha512
  }

  /** What a handler carries is true and stays true: its reservation, the signer it verified, and the
      certificate row it matched. */
  ghost predicate StageOk(w: World, db: Db, at: Stage) {
    && JobOk(db, at.job)
    && (at.Verified? ==> exists now :: SoleSigner(w, at.body, now, at.job.p, at.signer.serial, at.signer.fingerprint))
    && (at.Writing? || at.Creating? || at.Marking? ==>
          && at.sig.account == at.job.res.account && at.sig.device == at.job.res.device
          && at.sig.originalSha512 == at.job.res.originalSha512
          && (at.sig.verification == VerificationAccepted ==> CertificateRecorded(db, at.sig) && Vouched(w, at.job.p, at.sig)))
    && (at.Marking? || at.Discarding? ==> at.job.p in db.signatures)
  }

  ghost predicate Sound(w: World, cfg: Tiers.Limits, y: System) {
    && DbSound(w, y.s.db) && CA.LedgerOk(y.s.ledger) && U.SessionsOk(cfg.upload, y.s.uploads)
    && (forall t :: t in y.threads ==> StageOk(w, y.s.db, y.threads[t]))
  }

  lemma StageSurvives(w: World, a: Db, b: Db, at: Stage)
    requires StageOk(w, a, at) && Grows(a, b)
    ensures StageOk(w, b, at)
  {
    hide SoleSigner;
  }

  lemma ErasedOk(w: World, cfg: Tiers.Limits, db: Db)
    requires DbSound(w, db)
    ensures DbOk(w, cfg, Erased(db))
  {
    BoundUnder(w, db, Erased(db));
  }

  lemma BoundUnder(w: World, a: Db, b: Db)
    requires Bound(w, a) && b.certificates == a.certificates && b.enrollments == a.enrollments
    ensures Bound(w, b)
  {
    forall c | c in b.certificates ensures CertificateBound(w, b, b.certificates[c]) {
      assert CertificateBound(w, a, a.certificates[c]);
    }
  }

  /** Apart from submissions, a handler touches no record and no existing reservation. */
  lemma HandlerFrame(w: World, cfg: Tiers.Limits, s: State, e: Event)
    requires CA.LedgerOk(s.ledger) && Receiver.Legal(s, e) && !e.Submit? && Known(s.db)
    ensures var b := Step(w, cfg, s, e).0.db;
            && b.signatures == s.db.signatures
            && (forall p :: p in s.db.reservations ==> p in b.reservations && b.reservations[p] == s.db.reservations[p])
            && (forall p :: p in b.reservations && p !in s.db.reservations ==> b.reservations[p].status == ReservationReserved)
  {
    hide StepAccounts, StepEnrolment, CA.LedgerOk, U.ChunkHandled, U.Reaped, U.Created, NewestOfDevice, AccountListing;
    if OnAccounts(e) { AccountsFrame(s, e); } else if OnEnrolment(e) { EnrolmentFrame(w, s, e); } else { SigningFrame(w, cfg, s, e); }
  }

  lemma FromErased(w: World, cfg: Tiers.Limits, a: Db, b: Db)
    requires DbSound(w, a) && DbOk(w, cfg, Erased(b)) && Grows(Erased(a), Erased(b))
    requires b.signatures == a.signatures
    requires forall p :: p in a.reservations ==> p in b.reservations && b.reservations[p] == a.reservations[p]
    requires forall p :: p in b.reservations && p !in a.reservations ==> b.reservations[p].status == ReservationReserved
    ensures DbSound(w, b) && Grows(a, b)
  {
    hide Vouched, Enrolled, Bound, CertificateRecorded, Reopened;
    GrowsFromErased(a, b);
    assert Traced(b) by { TracedGrows(a, b); }
    assert Bound(w, b) by { BoundUnder(w, Erased(b), b); }
    RowsFromErased(w, b);
  }

  lemma RowsFromErased(w: World, b: Db)
    requires Known(Erased(b)) && EmailsIndexed(Erased(b)) && Enrolled(w, Erased(b)) && Reserved(Erased(b))
    ensures Known(b) && EmailsIndexed(b) && Enrolled(w, b) && Reserved(b)
  {
    forall p | p in b.reservations ensures p != "" && OwnsDevice(b, b.reservations[p].account, b.reservations[p].device) {
      assert p in Erased(b).reservations;
    }
  }

  lemma GrowsFromErased(a: Db, b: Db)
    requires Grows(Erased(a), Erased(b)) && b.signatures == a.signatures
    requires forall p :: p in a.reservations ==> p in b.reservations && b.reservations[p] == a.reservations[p]
    ensures Grows(a, b)
  {
    hide Reopened;
  }

  lemma HandlerKeeps(w: World, cfg: Tiers.Limits, s: State, e: Event)
    requires DbSound(w, s.db) && CA.LedgerOk(s.ledger) && U.SessionsOk(cfg.upload, s.uploads) && Receiver.Legal(s, e) && !e.Submit?
    ensures var s' := Step(w, cfg, s, e).0;
            DbSound(w, s'.db) && Grows(s.db, s'.db) && CA.LedgerOk(s'.ledger) && U.SessionsOk(cfg.upload, s'.uploads)
  {
    assert Known(s.db);
    hide DbSound, DbOk, Grows, Step, CA.LedgerOk, U.SessionsOk, Receiver.Legal, Erased;
    var b := Step(w, cfg, s, e).0.db;
    ErasedOk(w, cfg, s.db);
    HandlerErased(w, cfg, s, e);
    StepKeeps(w, cfg, ErasedState(s), e);
    UploadsKept(w, cfg, s, e);
    HandlerFrame(w, cfg, s, e);
    FromErased(w, cfg, s.db, b);
  }

  /** A signer that passed is the document's only one, sound, and named for the reservation. */
  lemma SignerSound(w: World, crl: CrlFile, p: Id, pdf: Bytes, at: Time)
    requires p != "" && SignerOf(w, crl, p, pdf, at).Some?
    ensures var sig := SignerOf(w, crl, p, pdf, at).value; SoleSigner(w, pdf, at, p, sig.serial, sig.fingerprint)
  {
    hide Hex.Print, V.CrlVerdict, V.StruckOut;
    var o := V.Options(crl, true, at);
    var parsed := w.parsePdf(pdf, at);
    assert 0 < |pdf| <= V.MAX_PDF_BYTES && parsed.Signatures? && |parsed.sigs| == 1;
    hide V.Verdict;
    SoleVerdict(w, pdf, o);
    V.PublicIdIs(V.SignatureVerdict(w, o, parsed.sigs[0]), p);
    SoundVerdictFields(w, o, parsed.sigs[0]);
  }

  lemma RowSound(db: Db, res: Reservation, signer: V.SignatureResult, index: map<string, Id>)
    requires SerialIndex(db.certificates, index) && RowFor(db, res, signer, index).Some?
    ensures var info := RowFor(db, res, signer, index).value;
            && info.serial == signer.serial && info.fingerprint == signer.fingerprint
            && info.certificate in db.certificates
            && var c := db.certificates[info.certificate];
               c.serial == info.serial && c.fingerprint == info.fingerprint && c.account == res.account && c.device == res.device
               && c.status == CertActive
  {
  }

  /** A store call of a submission: it touches objects, records and reservation statuses only. */
  ghost predicate SubmissionWrites(a: Db, b: Db) {
    && b == a.(objects := b.objects, signatures := b.signatures, reservations := b.reservations)
    && b.reservations.Keys == a.reservations.Keys && SignaturesGrow(a, b) && ReservationsGrow(a, b)
  }

  lemma WritesGrow(a: Db, b: Db)
    requires SubmissionWrites(a, b)
    ensures Grows(a, b)
  {
  }

  lemma TablesUnder(w: World, a: Db, b: Db)
    requires SubmissionWrites(a, b) && Known(a) && EmailsIndexed(a) && Enrolled(w, a) && Bound(w, a) && Reserved(a)
    ensures Known(b) && EmailsIndexed(b) && Enrolled(w, b) && Bound(w, b) && Reserved(b)
  {
    BoundUnder(w, a, b);
    ReservedGrows(a, b);
    hide CertificateBound, Bound;
  }

  lemma RecordSound(w: World, db: Db, p: Id, sig: Signature)
    requires DbSound(w, db) && p in db.reservations && p !in db.signatures
    requires sig.account == db.reservations[p].account && sig.device == db.reservations[p].device
    requires sig.originalSha512 == db.reservations[p].originalSha512
    requires sig.verification == VerificationAccepted ==> CertificateRecorded(db, sig) && Vouched(w, p, sig)
    ensures var b := db.(signatures := db.signatures[p := sig]); DbSound(w, b) && SubmissionWrites(db, b)
  {
    var b := db.(signatures := db.signatures[p := sig]);
    assert SubmissionWrites(db, b);
    TablesUnder(w, db, b);
    assert Traced(b) by { TracedGrows(db, b); }
    hide Vouched, Enrolled, Reserved, EmailsIndexed, Traced, Known, Bound;
  }

  lemma MarkSound(w: World, db: Db, p: Id)
    requires DbSound(w, db) && p in db.signatures
    ensures DbSound(w, MarkedAccepted(db, p)) && SubmissionWrites(db, MarkedAccepted(db, p))
  {
    hide Vouched, Enrolled, Reserved, EmailsIndexed, Known, Bound, CertificateRecorded;
    var b := MarkedAccepted(db, p);
    assert SubmissionWrites(db, b);
    assert Traced(b) by { TracedGrows(db, b); }
    hide Traced, SubmissionWrites;
    TablesUnder(w, db, b);
  }

  lemma PutSound(w: World, db: Db, key: string, body: Bytes)
    requires DbSound(w, db)
    ensures var b := db.(objects := db.objects[key := body]); DbSound(w, b) && SubmissionWrites(db, b)
  {
    var b := db.(objects := db.objects[key := body]);
    assert SubmissionWrites(db, b);
    TablesUnder(w, db, b);
    assert Traced(b) by { TracedGrows(db, b); }
    hide Vouched, Enrolled, Reserved, EmailsIndexed, Traced, Known, Bound;
  }

  /** What a store call of a submission does to the database. */
  lemma WriteDb(w: World, cfg: Tiers.Limits, y: System, c: Call)
    requires Sound(w, cfg, y) && Legal(y, c) && Writes(c)
    ensures var s' := Write(y, c).s;
            && DbSound(w, s'.db) && SubmissionWrites(y.s.db, s'.db) && s'.ledger == y.s.ledger && U.SessionsOk(cfg.upload, s'.uploads)
            && (!c.Create? ==> s'.db.signatures == y.s.db.signatures)
  {
    assert StageOk(w, y.s.db, y.threads[c.t]);
    assert SubmissionWrites(y.s.db, y.s.db);
    hide DbSound, CA.LedgerOk, MarkedAccepted, SubmissionWrites, Vouched;
    var at := y.threads[c.t];
    if c.Put? {
      PutSound(w, y.s.db, at.sig.objectKey, at.body);
    } else if c.Create? {
      if at.job.p !in y.s.db.signatures { RecordSound(w, y.s.db, at.job.p, at.sig); }
    } else if c.Mark? {
      MarkSound(w, y.s.db, at.job.p);
      MarkFrame(y.s.db, at.job.p);
    }
  }

  lemma MarkFrame(db: Db, p: Id)
    ensures MarkedAccepted(db, p).signatures == db.signatures
  {
  }

  lemma ReadsOnly(w: World, cfg: Tiers.Limits, y: System, c: Call)
    requires CA.LedgerOk(y.s.ledger) && Legal(y, c) && !c.Handler? && !Writes(c)
    ensures Next(w, cfg, y, c).s == y.s
  {
    hide CA.LedgerOk, SerialIndex, SignerOf, RowFor, K.Key, SignedInput, HasMagic, OnActiveDevice;
  }

  lemma SubmissionDb(w: World, cfg: Tiers.Limits, y: System, c: Call)
    requires Sound(w, cfg, y) && Legal(y, c) && !c.Handler?
    ensures var s' := Next(w, cfg, y, c).s;
            && DbSound(w, s'.db) && SubmissionWrites(y.s.db, s'.db) && s'.ledger == y.s.ledger && U.SessionsOk(cfg.upload, s'.uploads)
            && (!c.Create? ==> s'.db.signatures == y.s.db.signatures)
  {
    hide DbSound, CA.LedgerOk, Legal, Write, StageOk, Look, Decide;
    if Writes(c) { WriteDb(w, cfg, y, c); } else { ReadsOnly(w, cfg, y, c); }
  }

  /** What one step does to the database. */
  lemma NextDb(w: World, cfg: Tiers.Limits, y: System, c: Call)
    requires Sound(w, cfg, y) && Legal(y, c)
    ensures var s' := Next(w, cfg, y, c).s;
            DbSound(w, s'.db) && Grows(y.s.db, s'.db) && CA.LedgerOk(s'.ledger) && U.SessionsOk(cfg.upload, s'.uploads)
  {
    hide DbSound, Grows, Step, CA.LedgerOk, Receiver.Legal, U.SessionsOk, SubmissionWrites, StageOk;
    if c.Handler? {
      HandlerKeeps(w, cfg, y.s, c.e);
    } else {
      SubmissionDb(w, cfg, y, c);
      WritesGrow(y.s.db, Next(w, cfg, y, c).s.db);
    }
  }

  lemma LookStage(w: World, cfg: Tiers.Limits, y: System, c: Call)
    requires Legal(y, c) && Looks(c) && Reserved(y.s.db) && StageOk(w, y.s.db, y.threads[c.t])
    ensures var y' := Look(w, cfg, y, c); c.t in y'.threads ==> StageOk(w, y'.s.db, y'.threads[c.t])
  {
    hide SignerOf, SignedInput, SoleSigner, HasMagic, OnActiveDevice, Vouched, CertificateRecorded;
    if c.CheckDocument? {
      var at := y.threads[c.t];
      if SignerOf(w, y.s.crl, at.job.p, at.body, c.at).Some? { SignerSound(w, y.s.crl, at.job.p, at.body, c.at); }
    }
  }

  lemma DecideStage(w: World, cfg: Tiers.Limits, y: System, c: Call)
    requires Legal(y, c) && (c.Load? || c.Read? || c.Lookup?) && (!c.Load? ==> StageOk(w, y.s.db, y.threads[c.t]))
    ensures var y' := Decide(w, cfg, y, c); c.t in y'.threads ==> StageOk(w, y'.s.db, y'.threads[c.t])
  {
    hide SerialIndex, RowFor, K.Key, SoleSigner, Vouched, CertificateRecorded;
    if c.Lookup? { LookupStage(w, cfg, y, c.t, c.index); }
  }

  lemma WriteStage(w: World, y: System, c: Call)
    requires Legal(y, c) && Writes(c) && StageOk(w, y.s.db, y.threads[c.t])
    ensures var y' := Write(y, c); c.t in y'.threads ==> StageOk(w, y'.s.db, y'.threads[c.t])
  {
    hide Vouched;
  }

  /** What the stepping handler then carries. */
  lemma NextStage(w: World, cfg: Tiers.Limits, y: System, c: Call)
    requires Sound(w, cfg, y) && Legal(y, c) && !c.Handler?
    ensures var y' := Next(w, cfg, y, c); c.t in y'.threads ==> StageOk(w, y'.s.db, y'.threads[c.t])
  {
    assert Reserved(y.s.db);
    hide StageOk, Legal, Look, Write, Decide, DbSound, CA.LedgerOk, U.SessionsOk;
    if !c.Load? { HasThread(y, c); }
    if Looks(c) {
      LookStage(w, cfg, y, c);
    } else if Writes(c) {
      WriteStage(w, y, c);
    } else {
      DecideStage(w, cfg, y, c);
    }
  }

  lemma HasThread(y: System, c: Call)
    requires Legal(y, c) && !c.Handler? && !c.Load?
    ensures c.t in y.threads
  {
  }

  lemma LookupStage(w: World, cfg: Tiers.Limits, y: System, t: ThreadId, index: map<string, Id>)
    requires Legal(y, Lookup(t, index)) && StageOk(w, y.s.db, y.threads[t])
    ensures var at := y.threads[t];
            var info := RowFor(y.s.db, at.job.res, at.signer, index);
            info.Some? ==>
              && StageOk(w, y.s.db, Writing(at.job, Accepted(w, at.job, at.body, info.value, at.key), at.body))
              && info.value.certificate in y.s.db.certificates
              && y.s.db.certificates[info.value.certificate].account == at.job.res.account
              && y.s.db.certificates[info.value.certificate].status == CertActive
  {
    hide SoleSigner, RowFor, SerialIndex;
    var at := y.threads[t];
    var info := RowFor(y.s.db, at.job.res, at.signer, index);
    if info.Some? {
      RowSound(y.s.db, at.job.res, at.signer, index);
      var sig := Accepted(w, at.job, at.body, info.value, at.key);
      var now :| SoleSigner(w, at.body, now, at.job.p, at.signer.serial, at.signer.fingerprint);
      assert w.sha512(at.body) == sig.signedSha512 && SoleSigner(w, at.body, now, at.job.p, sig.serial, sig.fingerprint);
    }
  }

  lemma OtherThreads(w: World, cfg: Tiers.Limits, y: System, c: Call, t: ThreadId)
    requires CA.LedgerOk(y.s.ledger) && Legal(y, c) && t in Next(w, cfg, y, c).threads && (c.Handler? || t != c.t)
    ensures t in y.threads && Next(w, cfg, y, c).threads[t] == y.threads[t]
  {
    hide Step, Receiver.Legal, CA.LedgerOk, SignerOf, RowFor, K.Key, SignedInput, SerialIndex, MarkedAccepted, OnActiveDevice, HasMagic;
  }

  /** Every store call of every handler keeps the invariant, and only grows the tables. */
  lemma NextKeeps(w: World, cfg: Tiers.Limits, y: System, c: Call)
    requires Sound(w, cfg, y) && Legal(y, c)
    ensures Sound(w, cfg, Next(w, cfg, y, c)) && Grows(y.s.db, Next(w, cfg, y, c).s.db)
  {
    hide DbSound, Grows, Next, CA.LedgerOk, Legal, StageOk, U.SessionsOk;
    var y' := Next(w, cfg, y, c);
    NextDb(w, cfg, y, c);
    if !c.Handler? { NextStage(w, cfg, y, c); }
    forall t | t in y'.threads ensures StageOk(w, y'.s.db, y'.threads[t]) {
      if c.Handler? || t != c.t {
        OtherThreads(w, cfg, y, c, t);
        StageSurvives(w, y.s.db, y'.s.db, y.threads[t]);
      }
    }
  }

  // ---- whole runs ----

  ghost predicate LegalRun(w: World, cfg: Tiers.Limits, y: System, run: seq<Call>)
    requires CA.LedgerOk(y.s.ledger)
    decreases |run|
  {
    run == [] || (Legal(y, run[0]) && LegalRun(w, cfg, Next(w, cfg, y, run[0]), run[1..]))
  }

  ghost function After(w: World, cfg: Tiers.Limits, y: System, run: seq<Call>): (y': System)
    requires CA.LedgerOk(y.s.ledger) && LegalRun(w, cfg, y, run)
    ensures CA.LedgerOk(y'.s.ledger)
    decreases |run|
  {
    if run == [] then y else After(w, cfg, Next(w, cfg, y, run[0]), run[1..])
  }

  lemma {:induction false} RunKeepsSound(w: World, cfg: Tiers.Limits, y: System, run: seq<Call>)
    requires Sound(w, cfg, y) && LegalRun(w, cfg, y, run)
    ensures Sound(w, cfg, After(w, cfg, y, run)) && Grows(y.s.db, After(w, cfg, y, run).s.db)
    decreases |run|
  {
    hide DbSound, Grows, Next, Legal, StageOk;
    if run == [] {
      GrowsReflexive(y.s.db);
    } else {
      var y1 := Next(w, cfg, y, run[0]);
      NextKeeps(w, cfg, y, run[0]);
      RunKeepsSound(w, cfg, y1, run[1..]);
      GrowsTransitive(y.s.db, y1.s.db, After(w, cfg, y, run).s.db);
    }
  }

  /** However submissions overlap with each other and with every other handler: an accepted record has a
      reservation of its account and device, on a device of that account; its certificate is stored with
      the recorded serial and fingerprint for them and holds the key of the CSR they enrolled; and its
      hash and size are those of a document whose only signature that certificate made for this
      reservation.  A reservation marked accepted has its record. */
  lemma AcceptedTraceSurvivesInterleaving(w: World, cfg: Tiers.Limits, s0: State, run: seq<Call>, p: Id)
    requires Initial(s0) && LegalRun(w, cfg, System(s0, map[]), run)
    ensures var db := After(w, cfg, System(s0, map[]), run).s.db;
            && (p in db.reservations && db.reservations[p].status == ReservationAccepted ==> p in db.signatures)
            && (p in db.signatures && db.signatures[p].verification == VerificationAccepted ==>
                  var sig := db.signatures[p];
                  && p in db.reservations
                  && db.reservations[p].account == sig.account && db.reservations[p].device == sig.device
                  && db.reservations[p].originalSha512 == sig.originalSha512
                  && OwnsDevice(db, sig.account, sig.device)
                  && CertificateRecorded(db, sig)
                  && CertificateBound(w, db, db.certificates[sig.certificate])
                  && Vouched(w, p, sig))
  {
    hide LegalRun, After, Grows, Vouched;
    RunKeepsSound(w, cfg, System(s0, map[]), run);
  }

  // ---- submissions in flight while an account is disabled ----

  /** The handler has seen the certificate active and will record an accepted signature of the account. */
  predicate PastLookup(at: Stage, id: Id, p: Id) {
    (at.Writing? || at.Creating?) && at.sig.verification == VerificationAccepted && at.sig.account == id && at.job.p == p
  }

  predicate ReactivatingCall(y: System, c: Call, id: Id) {
    c.Handler? && Reactivates(y.s.db, c.e, id)
  }

  ghost predicate NeverReactivatedIn(w: World, cfg: Tiers.Limits, y: System, run: seq<Call>, id: Id)
    requires CA.LedgerOk(y.s.ledger) && LegalRun(w, cfg, y, run)
    decreases |run|
  {
    run == [] || (!ReactivatingCall(y, run[0], id) && NeverReactivatedIn(w, cfg, Next(w, cfg, y, run[0]), run[1..], id))
  }

  /** The account's handlers past the lookup were there before, with the same record in hand; so were its
      reservations; and a new accepted record is one that such a handler had in hand. */
  ghost predicate Drains(a: System, b: System, id: Id) {
    && (forall t, p :: t in b.threads && PastLookup(b.threads[t], id, p) ==>
          t in a.threads && PastLookup(a.threads[t], id, p) && a.threads[t].sig == b.threads[t].sig)
    && (forall p :: p in b.s.db.reservations && b.s.db.reservations[p].account == id ==> p in a.s.db.reservations)
    && (forall p :: NewlyAccepted(a, b, id, p) ==>
          exists t :: t in a.threads && PastLookup(a.threads[t], id, p) && a.threads[t].sig == b.s.db.signatures[p])
  }

  predicate NewlyAccepted(a: System, b: System, id: Id, p: Id) {
    && p !in a.s.db.signatures && p in b.s.db.signatures
    && b.s.db.signatures[p].account == id && b.s.db.signatures[p].verification == VerificationAccepted
  }

  lemma HandlerDrains(w: World, cfg: Tiers.Limits, y: System, e: Event, id: Id)
    requires Sound(w, cfg, y) && Legal(y, Handler(e)) && Dormant(y.s.db, id) && !Reactivates(y.s.db, e, id)
    ensures var y' := Next(w, cfg, y, Handler(e)); Dormant(y'.s.db, id) && Drains(y, y', id)
  {
    hide DbSound, DbOk, Grows, Step, CA.LedgerOk, U.SessionsOk, Receiver.Legal, StageOk;
    assert Known(y.s.db) by { SoundKnown(w, y.s.db); }
    ErasedOk(w, cfg, y.s.db);
    HandlerErased(w, cfg, y.s, e);
    StepKeeps(w, cfg, ErasedState(y.s), e);
    StepLeavesAlone(w, cfg, ErasedState(y.s), e, id);
    UndisturbedStaysDormant(ErasedState(y.s).db, Step(w, cfg, ErasedState(y.s), e).0.db, id);
    HandlerFrame(w, cfg, y.s, e);
  }

  lemma SoundKnown(w: World, db: Db)
    requires DbSound(w, db)
    ensures Known(db)
  {
  }

  /** No submission of a dormant account gets past the lookup. */
  lemma NoneGetsPast(w: World, cfg: Tiers.Limits, y: System, c: Call, id: Id, p: Id)
    requires Sound(w, cfg, y) && Legal(y, c) && Dormant(y.s.db, id) && !c.Handler?
    requires c.t in Next(w, cfg, y, c).threads && PastLookup(Next(w, cfg, y, c).threads[c.t], id, p)
    ensures c.t in y.threads && PastLookup(y.threads[c.t], id, p) && y.threads[c.t].sig == Next(w, cfg, y, c).threads[c.t].sig
  {
    if Looks(c) {
      LookNeverWrites(w, cfg, y, c);
      assert false;
    } else if !Writes(c) {
      hide CA.LedgerOk, SerialIndex, RowFor, K.Key, SoleSigner, U.SessionsOk, DbSound, Vouched;
      if c.Lookup? {
        assert StageOk(w, y.s.db, y.threads[c.t]);
        LookupStage(w, cfg, y, c.t, c.index);
      }
      assert false;
    }
  }

  lemma LookNeverWrites(w: World, cfg: Tiers.Limits, y: System, c: Call)
    requires Legal(y, c) && Looks(c)
    ensures var y' := Look(w, cfg, y, c); c.t in y'.threads ==> !y'.threads[c.t].Writing? && !y'.threads[c.t].Creating?
  {
    hide SignerOf, SignedInput, HasMagic, OnActiveDevice, SerialIndex;
  }

  lemma CreateRecords(w: World, cfg: Tiers.Limits, y: System, c: Call, p: Id)
    requires CA.LedgerOk(y.s.ledger) && Legal(y, c) && c.Create?
    requires p !in y.s.db.signatures && p in Next(w, cfg, y, c).s.db.signatures
    ensures y.threads[c.t].job.p == p && y.threads[c.t].sig == Next(w, cfg, y, c).s.db.signatures[p]
  {
  }

  lemma SubmissionDrains(w: World, cfg: Tiers.Limits, y: System, c: Call, id: Id)
    requires Sound(w, cfg, y) && Legal(y, c) && Dormant(y.s.db, id) && !c.Handler?
    ensures var y' := Next(w, cfg, y, c); Dormant(y'.s.db, id) && Drains(y, y', id)
  {
    hide CA.LedgerOk, U.SessionsOk, DbSound, StageOk, Next, Legal;
    var y' := Next(w, cfg, y, c);
    SubmissionDb(w, cfg, y, c);
    assert Dormant(y'.s.db, id);
    forall t, p | t in y'.threads && PastLookup(y'.threads[t], id, p)
      ensures t in y.threads && PastLookup(y.threads[t], id, p) && y.threads[t].sig == y'.threads[t].sig
    {
      if t == c.t { NoneGetsPast(w, cfg, y, c, id, p); } else { OtherThreads(w, cfg, y, c, t); }
    }
    forall p | NewlyAccepted(y, y', id, p)
      ensures exists t :: t in y.threads && PastLookup(y.threads[t], id, p) && y.threads[t].sig == y'.s.db.signatures[p]
    {
      CreateRecords(w, cfg, y, c, p);
      CreateStage(y, c);
      assert PastLookup(y.threads[c.t], id, p);
    }
  }

  lemma CreateStage(y: System, c: Call)
    requires Legal(y, c) && c.Create?
    ensures c.t in y.threads && y.threads[c.t].Creating?
  {
  }

  lemma DrainsTransitive(a: System, b: System, c: System, id: Id)
    requires Drains(a, b, id) && Drains(b, c, id) && SignaturesGrow(b.s.db, c.s.db) && ReservationsGrow(b.s.db, c.s.db)
    ensures Drains(a, c, id)
  {
    forall p | NewlyAccepted(a, c, id, p)
      ensures exists t :: t in a.threads && PastLookup(a.threads[t], id, p) && a.threads[t].sig == c.s.db.signatures[p]
    {
      if p in b.s.db.signatures {
        assert NewlyAccepted(a, b, id, p);
      } else {
        assert NewlyAccepted(b, c, id, p);
        var t :| t in b.threads && PastLookup(b.threads[t], id, p) && b.threads[t].sig == c.s.db.signatures[p];
        assert PastLookup(a.threads[t], id, p);
      }
    }
  }

  lemma {:induction false} DormantDrains(w: World, cfg: Tiers.Limits, y: System, run: seq<Call>, id: Id)
    requires Sound(w, cfg, y) && Dormant(y.s.db, id) && LegalRun(w, cfg, y, run) && NeverReactivatedIn(w, cfg, y, run, id)
    ensures var y' := After(w, cfg, y, run); Dormant(y'.s.db, id) && Drains(y, y', id)
    decreases |run|
  {
    hide DbSound, Grows, Next, Legal, StageOk, Dormant, Reactivates, SignaturesGrow, ReservationsGrow;
    if run != [] {
      var y1 := Next(w, cfg, y, run[0]);
      NextKeeps(w, cfg, y, run[0]);
      if run[0].Handler? { HandlerDrains(w, cfg, y, run[0].e, id); } else { SubmissionDrains(w, cfg, y, run[0], id); }
      DormantDrains(w, cfg, y1, run[1..], id);
      RunKeepsSound(w, cfg, y1, run[1..]);
      GrowsParts(y1.s.db, After(w, cfg, y, run).s.db);
      DrainsTransitive(y, y1, After(w, cfg, y, run), id);
    } else {
      assert Drains(y, y, id);
    }
  }

  lemma GrowsParts(a: Db, b: Db)
    requires Grows(a, b)
    ensures SignaturesGrow(a, b) && ReservationsGrow(a, b)
  {
  }

  lemma Prepend(w: World, cfg: Tiers.Limits, y: System, c: Call, rest: seq<Call>)
    requires CA.LedgerOk(y.s.ledger) && Legal(y, c) && LegalRun(w, cfg, Next(w, cfg, y, c), rest)
    ensures LegalRun(w, cfg, y, [c] + rest) && After(w, cfg, y, [c] + rest) == After(w, cfg, Next(w, cfg, y, c), rest)
    ensures forall id :: !c.Handler? && NeverReactivatedIn(w, cfg, Next(w, cfg, y, c), rest, id) ==>
              NeverReactivatedIn(w, cfg, y, [c] + rest, id)
  {
    hide Next, Legal, CA.LedgerOk, Reactivates;
    assert ([c] + rest)[1..] == rest;
  }

  lemma CreateNow(w: World, cfg: Tiers.Limits, y: System, t: ThreadId, id: Id, p: Id) returns (run: seq<Call>)
    requires CA.LedgerOk(y.s.ledger) && t in y.threads && y.threads[t].Creating? && PastLookup(y.threads[t], id, p)
    requires p !in y.s.db.signatures
    ensures LegalRun(w, cfg, y, run) && NeverReactivatedIn(w, cfg, y, run, id)
    ensures NewlyAccepted(y, After(w, cfg, y, run), id, p)
  {
    hide CA.LedgerOk;
    var y1 := Next(w, cfg, y, Create(t));
    assert NewlyAccepted(y, y1, id, p);
    hide Next;
    Prepend(w, cfg, y, Create(t), []);
    run := [Create(t)] + [];
  }

  /** A handler past the lookup, left to itself, records what it has in hand. */
  lemma LeftToItself(w: World, cfg: Tiers.Limits, y: System, t: ThreadId, id: Id, p: Id) returns (run: seq<Call>)
    requires CA.LedgerOk(y.s.ledger) && t in y.threads && PastLookup(y.threads[t], id, p) && p !in y.s.db.signatures
    ensures LegalRun(w, cfg, y, run) && NeverReactivatedIn(w, cfg, y, run, id)
    ensures NewlyAccepted(y, After(w, cfg, y, run), id, p)
  {
    hide CA.LedgerOk, LegalRun, After, NeverReactivatedIn;
    if y.threads[t].Creating? {
      run := CreateNow(w, cfg, y, t, id, p);
    } else {
      var y1 := Next(w, cfg, y, Put(t));
      assert y1.s.db.signatures == y.s.db.signatures && y1.threads[t].Creating? && PastLookup(y1.threads[t], id, p);
      hide Next;
      var rest := CreateNow(w, cfg, y1, t, id, p);
      Prepend(w, cfg, y, Put(t), rest);
      run := [Put(t)] + rest;
    }
  }

  ghost predicate MayStillBeAccepted(w: World, cfg: Tiers.Limits, y: System, id: Id, p: Id)
    requires CA.LedgerOk(y.s.ledger)
  {
    exists run :: LegalRun(w, cfg, y, run) && NeverReactivatedIn(w, cfg, y, run, id) && NewlyAccepted(y, After(w, cfg, y, run), id, p)
  }

  /** Without reactivation, a dormant account can still get an accepted record for a reservation exactly
      when that reservation has no record and one of its submissions is past the certificate lookup. */
  lemma LateAcceptanceIff(w: World, cfg: Tiers.Limits, y: System, id: Id, p: Id)
    requires Sound(w, cfg, y) && Dormant(y.s.db, id)
    ensures MayStillBeAccepted(w, cfg, y, id, p) <==>
            p !in y.s.db.signatures && exists t :: t in y.threads && PastLookup(y.threads[t], id, p)
  {
    hide DbSound, Dormant, LegalRun, After, NeverReactivatedIn, StageOk, CA.LedgerOk, U.SessionsOk;
    if MayStillBeAccepted(w, cfg, y, id, p) {
      var run :| LegalRun(w, cfg, y, run) && NeverReactivatedIn(w, cfg, y, run, id) && NewlyAccepted(y, After(w, cfg, y, run), id, p);
      DormantDrains(w, cfg, y, run, id);
    }
    if p !in y.s.db.signatures && exists t :: t in y.threads && PastLookup(y.threads[t], id, p) {
      var t :| t in y.threads && PastLookup(y.threads[t], id, p);
      var run := LeftToItself(w, cfg, y, t, id, p);
    }
  }

  /** Disabling or deleting an account while submissions are in flight leaves it dormant, and the only
      accepted signatures it can still get are those that were past the lookup at that moment. */
  lemma DisableWithSubmissionsInFlight(w: World, cfg: Tiers.Limits, y: System, e: Event, p: Id)
    requires Sound(w, cfg, y) && Legal(y, Handler(e))
    requires (e.DisableAccount? || e.DeleteAccount?) && ClientTarget(y.s.db, e.id)
    ensures var y' := Next(w, cfg, y, Handler(e));
            && Dormant(y'.s.db, e.id)
            && (MayStillBeAccepted(w, cfg, y', e.id, p) <==>
                  p !in y.s.db.signatures && exists t :: t in y.threads && PastLookup(y.threads[t], e.id, p))
  {
    hide DbSound, DbOk, Grows, Dormant, MayStillBeAccepted, StageOk, CA.LedgerOk, U.SessionsOk, Receiver.Legal, Step;
    var y' := Next(w, cfg, y, Handler(e));
    assert Known(y.s.db) by { SoundKnown(w, y.s.db); }
    ErasedOk(w, cfg, y.s.db);
    HandlerErased(w, cfg, y.s, e);
    DisableIsExact(w, cfg, ErasedState(y.s), e);
    DormantErased(y'.s.db, e.id);
    HandlerFrame(w, cfg, y.s, e);
    NextKeeps(w, cfg, y, Handler(e));
    LateAcceptanceIff(w, cfg, y', e.id, p);
  }

  lemma DormantErased(db: Db, id: Id)
    ensures Dormant(Erased(db), id) <==> Dormant(db, id)
  {
  }

  // ---- one submission by itself is the atomic step ----

  lemma FinishMarking(w: World, cfg: Tiers.Limits, y: System, t: ThreadId) returns (run: seq<Call>)
    requires CA.LedgerOk(y.s.ledger) && t in y.threads && y.threads[t].Marking?
    ensures LegalRun(w, cfg, y, run)
    ensures var job := y.threads[t].job;
            var uploads := if job.input.FromUpload? then U.Discarded(y.s.uploads, job.input.id) else y.s.uploads;
            After(w, cfg, y, run) == System(y.s.(db := MarkedAccepted(y.s.db, job.p), uploads := uploads), y.threads - {t})
  {
    hide CA.LedgerOk, MarkedAccepted, U.Discarded;
    var y1 := Next(w, cfg, y, Mark(t));
    var y2 := Next(w, cfg, y1, Discard(t));
    assert y2.threads == y.threads - {t};
    Prepend(w, cfg, y1, Discard(t), []);
    assert After(w, cfg, y2, []) == y2;
    hide LegalRun, After;
    Prepend(w, cfg, y, Mark(t), [Discard(t)] + []);
    run := [Mark(t)] + ([Discard(t)] + []);
  }

  lemma FinishWriting(w: World, cfg: Tiers.Limits, y: System, t: ThreadId) returns (run: seq<Call>)
    requires CA.LedgerOk(y.s.ledger) && t in y.threads && y.threads[t].Writing? && y.threads[t].job.p in y.s.db.reservations
    ensures LegalRun(w, cfg, y, run)
    ensures var at := y.threads[t];
            After(w, cfg, y, run) ==
              System(Record(y.s, at.job.p, at.sig.objectKey, at.body, at.sig, at.job.input).0, y.threads - {t})
  {
    hide CA.LedgerOk, U.Discarded;
    var at := y.threads[t];
    var y1 := Next(w, cfg, y, Put(t));
    var y2 := Next(w, cfg, y1, Create(t));
    assert y2.threads - {t} == y.threads - {t};
    var rest: seq<Call>;
    if at.job.p in y.s.db.signatures {
      rest := [];
      assert LegalRun(w, cfg, y2, rest) && After(w, cfg, y2, rest) == y2;
    } else {
      rest := FinishMarking(w, cfg, y2, t);
    }
    hide LegalRun, After;
    Prepend(w, cfg, y1, Create(t), rest);
    Prepend(w, cfg, y, Put(t), [Create(t)] + rest);
    run := [Put(t)] + ([Create(t)] + rest);
  }

  /** Where a submission ends that is past its document check, its device check, or has just been read. */
  function EndVerified(w: World, s: State, job: Job, body: Bytes, key: string, signer: V.SignatureResult, index: map<string, Id>): (s': State)
    requires job.p in s.db.reservations
  {
    match RowFor(s.db, job.res, signer, index)
    case None => s
    case Some(info) => Record(s, job.p, key, body, Accepted(w, job, body, info, key), job.input).0
  }

  function EndDeviceSeen(w: World, s: State, job: Job, body: Bytes, key: string, at: Time, index: map<string, Id>): (s': State)
    requires job.p in s.db.reservations
  {
    match SignerOf(w, s.crl, job.p, body, at)
    case None => s
    case Some(signer) => EndVerified(w, s, job, body, key, signer, index)
  }

  function EndReading(w: World, s: State, job: Job, body: Bytes, key: string, at: Time, index: map<string, Id>): (s': State)
    requires job.p in s.db.reservations
  {
    if HasMagic(body) && job.p !in s.db.signatures && OnActiveDevice(s.db, job.res) then EndDeviceSeen(w, s, job, body, key, at, index) else s
  }

  function EndHolding(w: World, cfg: Tiers.Limits, s: State, job: Job, held: Bytes, size: nat, year: nat, month: nat, at: Time, index: map<string, Id>): (s': State)
    requires job.p in s.db.reservations
  {
    var key := K.Key(year, month, job.p);
    if size <= cfg.verify then EndReading(w, s, job, held, key, at, index)
    else Record(s, job.p, key, held, StoredOnly(w, job, held, size, key), job.input).0
  }

  lemma Stop(w: World, cfg: Tiers.Limits, y: System)
    requires CA.LedgerOk(y.s.ledger)
    ensures LegalRun(w, cfg, y, []) && After(w, cfg, y, []) == y
  {
  }

  lemma FinishVerified(w: World, cfg: Tiers.Limits, y: System, t: ThreadId, index: map<string, Id>) returns (run: seq<Call>)
    requires CA.LedgerOk(y.s.ledger) && t in y.threads && y.threads[t].Verified? && y.threads[t].job.p in y.s.db.reservations
    requires SerialIndex(y.s.db.certificates, index)
    ensures LegalRun(w, cfg, y, run)
    ensures var on := y.threads[t];
            After(w, cfg, y, run) == System(EndVerified(w, y.s, on.job, on.body, on.key, on.signer, index), y.threads - {t})
  {
    hide CA.LedgerOk, SerialIndex, RowFor, Record, LegalRun, After;
    var on := y.threads[t];
    var y1 := Next(w, cfg, y, Lookup(t, index));
    assert y1.s == y.s && y1.threads - {t} == y.threads - {t};
    var rest: seq<Call> := [];
    if RowFor(y.s.db, on.job.res, on.signer, index).Some? { rest := FinishWriting(w, cfg, y1, t); } else { Stop(w, cfg, y1); }
    Prepend(w, cfg, y, Lookup(t, index), rest);
    run := [Lookup(t, index)] + rest;
  }

  lemma FinishDeviceSeen(w: World, cfg: Tiers.Limits, y: System, t: ThreadId, at: Time, index: map<string, Id>) returns (run: seq<Call>)
    requires CA.LedgerOk(y.s.ledger) && t in y.threads && y.threads[t].DeviceSeen? && y.threads[t].job.p in y.s.db.reservations
    requires SerialIndex(y.s.db.certificates, index)
    ensures LegalRun(w, cfg, y, run)
    ensures var on := y.threads[t];
            After(w, cfg, y, run) == System(EndDeviceSeen(w, y.s, on.job, on.body, on.key, at, index), y.threads - {t})
  {
    hide CA.LedgerOk, SerialIndex, SignerOf, EndVerified, LegalRun, After;
    var on := y.threads[t];
    var y1 := Next(w, cfg, y, CheckDocument(t, at));
    assert y1.s == y.s && y1.threads - {t} == y.threads - {t};
    var rest: seq<Call> := [];
    if SignerOf(w, y.s.crl, on.job.p, on.body, at).Some? { rest := FinishVerified(w, cfg, y1, t, index); } else { Stop(w, cfg, y1); }
    Prepend(w, cfg, y, CheckDocument(t, at), rest);
    run := [CheckDocument(t, at)] + rest;
  }

  lemma FinishReading(w: World, cfg: Tiers.Limits, y: System, t: ThreadId, at: Time, index: map<string, Id>) returns (run: seq<Call>)
    requires CA.LedgerOk(y.s.ledger) && t in y.threads && y.threads[t].Reading? && y.threads[t].job.p in y.s.db.reservations
    requires SerialIndex(y.s.db.certificates, index)
    ensures LegalRun(w, cfg, y, run)
    ensures var on := y.threads[t];
            After(w, cfg, y, run) == System(EndReading(w, y.s, on.job, on.body, on.key, at, index), y.threads - {t})
  {
    hide CA.LedgerOk, SerialIndex, HasMagic, OnActiveDevice, EndDeviceSeen, LegalRun, After;
    var on := y.threads[t];
    var y1 := Next(w, cfg, y, CheckRecord(t));
    assert y1.s == y.s && y1.threads - {t} == y.threads - {t};
    var rest: seq<Call> := [];
    if HasMagic(on.body) && on.job.p !in y.s.db.signatures {
      var y2 := Next(w, cfg, y1, CheckDevice(t));
      assert y2.s == y.s && y2.threads - {t} == y.threads - {t};
      if OnActiveDevice(y.s.db, on.job.res) { rest := FinishDeviceSeen(w, cfg, y2, t, at, index); } else { Stop(w, cfg, y2); }
      Prepend(w, cfg, y1, CheckDevice(t), rest);
      rest := [CheckDevice(t)] + rest;
    } else {
      Stop(w, cfg, y1);
    }
    Prepend(w, cfg, y, CheckRecord(t), rest);
    run := [CheckRecord(t)] + rest;
  }

  lemma FinishHolding(w: World, cfg: Tiers.Limits, y: System, t: ThreadId, year: nat, month: nat, at: Time, index: map<string, Id>) returns (run: seq<Call>)
    requires CA.LedgerOk(y.s.ledger) && t in y.threads && y.threads[t].Holding? && y.threads[t].job.p in y.s.db.reservations
    requires SerialIndex(y.s.db.certificates, index)
    ensures LegalRun(w, cfg, y, run)
    ensures var on := y.threads[t];
            After(w, cfg, y, run) == System(EndHolding(w, cfg, y.s, on.job, on.held, on.size, year, month, at, index), y.threads - {t})
  {
    hide CA.LedgerOk, SerialIndex, EndReading, Record, K.Key, LegalRun, After;
    var on := y.threads[t];
    assert on.held + [] == on.held;
    var c := Read(t, [], year, month);
    var y1 := Next(w, cfg, y, c);
    assert y1.s == y.s && y1.threads - {t} == y.threads - {t};
    var rest: seq<Call>;
    if on.size <= cfg.verify { rest := FinishReading(w, cfg, y1, t, at, index); } else { rest := FinishWriting(w, cfg, y1, t); }
    Prepend(w, cfg, y, c, rest);
    run := [c] + rest;
  }

  lemma FinishOpening(w: World, cfg: Tiers.Limits, y: System, t: ThreadId, year: nat, month: nat, at: Time, index: map<string, Id>) returns (run: seq<Call>)
    requires CA.LedgerOk(y.s.ledger) && t in y.threads && y.threads[t].Opening? && y.threads[t].job.p in y.s.db.reservations
    requires SerialIndex(y.s.db.certificates, index)
    ensures LegalRun(w, cfg, y, run)
    ensures var job := y.threads[t].job;
            var got := SignedInput(cfg, y.s.uploads, job.sub, job.input);
            After(w, cfg, y, run) ==
              System(if got.None? then y.s else EndHolding(w, cfg, y.s, job, got.value.0, got.value.1, year, month, at, index), y.threads - {t})
  {
    hide CA.LedgerOk, SerialIndex, EndHolding, SignedInput, LegalRun, After;
    var job := y.threads[t].job;
    var y1 := Next(w, cfg, y, Open(t));
    assert y1.s == y.s && y1.threads - {t} == y.threads - {t};
    var rest: seq<Call> := [];
    if SignedInput(cfg, y.s.uploads, job.sub, job.input).Some? { rest := FinishHolding(w, cfg, y1, t, year, month, at, index); } else { Stop(w, cfg, y1); }
    Prepend(w, cfg, y, Open(t), rest);
    run := [Open(t)] + rest;
  }

  /** The guard, split into its reads, accepts what it accepts in one go. */
  lemma EndIsSubmitting(w: World, cfg: Tiers.Limits, s: State, sub: Id, p: Id, input: Input, year: nat, month: nat, at: Time, index: map<string, Id>)
    requires p in s.db.reservations && s.db.reservations[p].account == sub
    requires !(s.db.reservations[p].status == ReservationAccepted && p in s.db.signatures)
    ensures var job := Job(p, sub, s.db.reservations[p], input);
            var got := SignedInput(cfg, s.uploads, sub, input);
            Submitting(w, cfg, s, sub, p, input, year, month, at, index).0 ==
              if got.None? then s else EndHolding(w, cfg, s, job, got.value.0, got.value.1, year, month, at, index)
  {
    hide SignedInput, SignerOf, RowFor, HasMagic, OnActiveDevice, Record, K.Key;
  }

  /** A submission whose store calls nothing interrupts does exactly what the atomic step does. */
  lemma UninterruptedIsAtomic(w: World, cfg: Tiers.Limits, y: System, t: ThreadId, sub: Id, p: Id, input: Input,
                              year: nat, month: nat, at: Time, index: map<string, Id>) returns (run: seq<Call>)
    requires CA.LedgerOk(y.s.ledger) && t !in y.threads && SerialIndex(y.s.db.certificates, index)
    ensures LegalRun(w, cfg, y, run)
    ensures After(w, cfg, y, run) == System(Submitting(w, cfg, y.s, sub, p, input, year, month, at, index).0, y.threads)
  {
    hide CA.LedgerOk, SerialIndex, EndHolding, SignedInput, LegalRun, After;
    var c := Load(t, sub, p, input);
    var y1 := Next(w, cfg, y, c);
    var rest: seq<Call> := [];
    if p in y.s.db.reservations && y.s.db.reservations[p].account == sub {
      var y2 := Next(w, cfg, y1, Complete(t));
      assert y2.s == y.s && y2.threads - {t} == y.threads;
      if y.s.db.reservations[p].status == ReservationAccepted && p in y.s.db.signatures {
        assert y2 == y;
        Stop(w, cfg, y2);
      } else {
        rest := FinishOpening(w, cfg, y2, t, year, month, at, index);
        hide Submitting;
        EndIsSubmitting(w, cfg, y.s, sub, p, input, year, month, at, index);
      }
      Prepend(w, cfg, y1, Complete(t), rest);
      rest := [Complete(t)] + rest;
    } else {
      Stop(w, cfg, y1);
    }
    Prepend(w, cfg, y, c, rest);
    run := [c] + rest;
  }
}
