/** Runs that do happen: a device enrolled and a document accepted, so that the theorems about
    accepted records speak of something; and the runs behind the properties that fail. */
module Scenario {
  import opened Basics
  import opened Pki
  import opened Store
  import opened Receiver
  import opened ReceiverInvariant
  import opened ReceiverTheorems
  import Hex
  import CA = CaLedger
  import V = Verification
  import U = Uploads
  import K = ObjectKey
  import Tiers
  import C = ConcurrentReceiver

  const START := State(EMPTY_DB, NoCrl, CA.EMPTY_LEDGER, U.EMPTY)

  /** One more step at the end of a run. */
  lemma {:induction false} RunSnoc(w: World, cfg: Tiers.Limits, s: State, run: seq<Event>, e: Event)
    requires CA.LedgerOk(s.ledger) && LegalRun(w, cfg, s, run) && CA.LedgerOk(After(w, cfg, s, run).ledger)
    requires Legal(After(w, cfg, s, run), e)
    ensures LegalRun(w, cfg, s, run + [e])
    ensures After(w, cfg, s, run + [e]) == Step(w, cfg, After(w, cfg, s, run), e).0
    decreases |run|
  {
    hide Step, Legal, CA.LedgerOk;
    if run == [] {
      assert run + [e] == [e] && [e][1..] == [];
    } else {
      RunSnoc(w, cfg, Step(w, cfg, s, run[0]).0, run[1..], e);
      assert (run + [e])[1..] == run[1..] + [e];
    }
  }

  predicate NoSubmission(run: seq<Event>) {
    forall i :: 0 <= i < |run| ==> !run[i].Submit?
  }

  // ---- up to a reservation ----

  /** The world parses one CSR and one certificate issued for it that passes every check at time 1. */
  predicate Issues(w: World, csr: Bytes, pem: Bytes) {
    && w.parseCsr(csr).Some? && w.parseCertificate(pem).Some?
    && var x := w.parseCertificate(pem).value;
       && x.mldsa && x.notBefore <= 1 <= x.notAfter && !x.isCA && x.documentSigning && w.chains(x, 1)
       && Some(x.key) == w.parseCsr(csr)
  }

  function DemoCertificate(x: X509, pem: Bytes): (c: Certificate) {
    Certificate("enr", "dev", "acct", Hex.Print(x.serial), x.fingerprint, pem, x.notBefore, CertActive)
  }

  function Enrolled0(w: World, csr: Bytes, pem: Bytes): (db: Db)
    requires Issues(w, csr, pem)
  {
    EMPTY_DB.(accounts := map["acct" := Account("a@b", RoleUser, AccountActive)], emails := map["a@b" := "acct"],
              devices := map["dev" := Device("acct", DeviceActive)],
              enrollments := map["enr" := Enrollment("dev", "acct", csr, EnrollmentIssued)],
              certificates := map["cert" := DemoCertificate(w.parseCertificate(pem).value, pem)],
              used := {"acct", "dev", "enr", "cert"})
  }

  function Reserved0(w: World, csr: Bytes, pem: Bytes): (db: Db)
    requires Issues(w, csr, pem)
  {
    var db := Enrolled0(w, csr, pem);
    db.(reservations := map["pub" := Reservation("acct", "dev", "", ReservationReserved)], used := db.used + {"pub"})
  }

  function WithDevice0(): (db: Db) {
    EMPTY_DB.(accounts := map["acct" := Account("a@b", RoleUser, AccountActive)], emails := map["a@b" := "acct"],
              devices := map["dev" := Device("acct", DeviceActive)], used := {"acct", "dev"})
  }

  /** Register, approve, add a device. */
  lemma DeviceRun(w: World, cfg: Tiers.Limits) returns (run: seq<Event>)
    ensures LegalRun(w, cfg, START, run) && NoSubmission(run)
    ensures After(w, cfg, START, run) == START.(db := WithDevice0())
  {
    var db1 := EMPTY_DB.(accounts := map["acct" := Account("a@b", RoleUser, AccountPending)], emails := map["a@b" := "acct"], used := {"acct"});
    var db2 := db1.(accounts := map["acct" := Account("a@b", RoleUser, AccountActive)]);
    var e1, e2, e3 := Register("acct", "a@b"), ApproveAccount("acct"), CreateDevice("acct", "dev");
    assert Step(w, cfg, START, e1).0 == START.(db := db1);
    assert Step(w, cfg, START.(db := db1), e2).0 == START.(db := db2);
    assert Step(w, cfg, START.(db := db2), e3).0 == START.(db := WithDevice0());
    hide Step, Legal;
    RunSnoc(w, cfg, START, [], e1);
    RunSnoc(w, cfg, START, [] + [e1], e2);
    RunSnoc(w, cfg, START, [] + [e1] + [e2], e3);
    run := [] + [e1] + [e2] + [e3];
  }

  function Submitted0(csr: Bytes): (db: Db) {
    WithDevice0().(enrollments := map["enr" := Enrollment("dev", "acct", csr, EnrollmentSubmitted)], used := {"acct", "dev", "enr"})
  }

  lemma SubmitCsrStep(w: World, cfg: Tiers.Limits, csr: Bytes, pem: Bytes)
    requires Issues(w, csr, pem)
    ensures var s, e := START.(db := WithDevice0()), SubmitCsr("acct", "dev", csr, "enr", None);
            Legal(s, e) && Step(w, cfg, s, e).0 == START.(db := Submitted0(csr))
  {
  }

  lemma IssueStep(w: World, cfg: Tiers.Limits, csr: Bytes, pem: Bytes)
    requires Issues(w, csr, pem)
    ensures var s, e := START.(db := Submitted0(csr)), IssueCertificate("enr", Issue(pem, "cert", 1));
            Legal(s, e) && Step(w, cfg, s, e).0 == START.(db := Enrolled0(w, csr, pem))
  {
    hide Hex.Print;
    assert BoundCertificate(w, Submitted0(csr), "enr", Issue(pem, "cert", 1)) == Some(DemoCertificate(w.parseCertificate(pem).value, pem));
  }

  /** Enrol it and bind its certificate. */
  lemma EnrolledRun(w: World, cfg: Tiers.Limits, csr: Bytes, pem: Bytes) returns (run: seq<Event>)
    requires Issues(w, csr, pem)
    ensures LegalRun(w, cfg, START, run) && NoSubmission(run)
    ensures After(w, cfg, START, run) == START.(db := Enrolled0(w, csr, pem))
  {
    hide Issues, Enrolled0, Submitted0, WithDevice0, Step, Legal, LegalRun, After;
    run := DeviceRun(w, cfg);
    var e4, e5 := SubmitCsr("acct", "dev", csr, "enr", None), IssueCertificate("enr", Issue(pem, "cert", 1));
    SubmitCsrStep(w, cfg, csr, pem);
    IssueStep(w, cfg, csr, pem);
    RunSnoc(w, cfg, START, run, e4);
    RunSnoc(w, cfg, START, run + [e4], e5);
    run := run + [e4] + [e5];
  }

  lemma ReserveStep(w: World, cfg: Tiers.Limits, csr: Bytes, pem: Bytes)
    requires Issues(w, csr, pem)
    ensures var s, e := START.(db := Enrolled0(w, csr, pem)), Reserve("acct", "dev", "", Some("cert"), "pub");
            Legal(s, e) && Step(w, cfg, s, e).0 == START.(db := Reserved0(w, csr, pem))
  {
    hide Hex.Print, Issues;
    var s, e := START.(db := Enrolled0(w, csr, pem)), Reserve("acct", "dev", "", Some("cert"), "pub");
    assert Step(w, cfg, s, e).0 == StepSigning(w, cfg, s, e).0;
    assert Reserving(s.db, "acct", "dev", "", Some("cert"), "pub").0 == Reserved0(w, csr, pem);
  }

  /** And reserve. */
  lemma ReservedRun(w: World, cfg: Tiers.Limits, csr: Bytes, pem: Bytes) returns (run: seq<Event>)
    requires Issues(w, csr, pem)
    ensures LegalRun(w, cfg, START, run) && NoSubmission(run)
    ensures After(w, cfg, START, run) == START.(db := Reserved0(w, csr, pem))
  {
    hide Issues, Enrolled0, Reserved0, Step, Legal, LegalRun, After;
    run := EnrolledRun(w, cfg, csr, pem);
    var e := Reserve("acct", "dev", "", Some("cert"), "pub");
    ReserveStep(w, cfg, csr, pem);
    RunSnoc(w, cfg, START, run, e);
    run := run + [e];
  }

  // ---- an accepted document ----

  /** The document carries one valid signature, by that certificate, for the public id "pub". */
  predicate Signs(w: World, pdf: Bytes, x: X509) {
    && |pdf| <= V.MAX_PDF_BYTES && |pdf| >= 5 && pdf[..5] == PDF_MAGIC
    && w.parsePdf(pdf, 1) == Signatures([RawSignature(true, true, false, V.PUBLIC_ID_PREFIX + "pub", Some(x))])
  }

  lemma SubmitAccepted(w: World, cfg: Tiers.Limits, csr: Bytes, pem: Bytes, pdf: Bytes)
    requires Issues(w, csr, pem) && Signs(w, pdf, w.parseCertificate(pem).value) && |pdf| <= cfg.verify <= cfg.upload
    ensures var s := START.(db := Reserved0(w, csr, pem));
            var index := map[Hex.Print(w.parseCertificate(pem).value.serial) := "cert"];
            var e := Submit("acct", "pub", RawBody(pdf), 2026, 1, 1, index);
            && Legal(s, e)
            && var db := Step(w, cfg, s, e).0.db;
               "pub" in db.signatures && db.signatures["pub"].verification == VerificationAccepted
  {
    hide Hex.Print, K.Key;
    var s := START.(db := Reserved0(w, csr, pem));
    var x := w.parseCertificate(pem).value;
    var index := map[Hex.Print(x.serial) := "cert"];
    assert SoleSigner(w, pdf, 1, "pub", Hex.Print(x.serial), x.fingerprint);
    assert Acceptable(w, s, "pub", s.db.reservations["pub"], pdf, 1, index);
    StrictVerifyIff(w, s, "pub", s.db.reservations["pub"], pdf, 1, index);
    hide StrictVerify;
    assert Submitting(w, cfg, s, "acct", "pub", RawBody(pdf), 2026, 1, 1, index).1.Recorded?;
  }

  /** A small world: one CSR, one certificate, one document. */
  function SmallCertificate(): (x: X509) {
    X509(10, "f", "signer", "issuer", "key", true, false, true, 0, 2)
  }

  function SmallWorld(): (w: World) {
    World(
      csr => if csr == [1] then Some("key") else None,
      pem => if pem == [2] then Some(SmallCertificate()) else None,
      (x, at) => true, (crl, x) => true, [],
      (pdf, at) => if pdf == PDF_MAGIC
                   then Signatures([RawSignature(true, true, false, V.PUBLIC_ID_PREFIX + "pub", Some(SmallCertificate()))])
                   else CannotOpen,
      bytes => "")
  }

  lemma SmallWorldSigns()
    ensures var w := SmallWorld();
            FingerprintsIdentifyKeys(w) && Issues(w, [1], [2]) && Signs(w, PDF_MAGIC, w.parseCertificate([2]).value)
  {
    var w := SmallWorld();
    assert w.parsePdf(PDF_MAGIC, 1) == Signatures([RawSignature(true, true, false, V.PUBLIC_ID_PREFIX + "pub", Some(SmallCertificate()))]);
  }

  /** Accepted records are reachable in a world where fingerprints identify keys, for every limit that
      admits the document. */
  lemma AcceptanceIsReachable(cfg: Tiers.Limits) returns (w: World, run: seq<Event>)
    requires 5 <= cfg.verify <= cfg.upload
    ensures Initial(START) && FingerprintsIdentifyKeys(w) && LegalRun(w, cfg, START, run)
    ensures var db := After(w, cfg, START, run).db;
            "pub" in db.signatures && db.signatures["pub"].verification == VerificationAccepted
  {
    w := SmallWorld();
    SmallWorldSigns();
    hide SmallWorld, FingerprintsIdentifyKeys, Issues, Signs, Enrolled0, Reserved0, Step, Legal, LegalRun, After, Hex.Print;
    run := ReservedRun(w, cfg, [1], [2]);
    SubmitAccepted(w, cfg, [1], [2], PDF_MAGIC);
    var e := Submit("acct", "pub", RawBody(PDF_MAGIC), 2026, 1, 1, map[Hex.Print(w.parseCertificate([2]).value.serial) := "cert"]);
    RunSnoc(w, cfg, START, run, e);
    run := run + [e];
  }

  // ---- a record over the upload limit ----

  lemma OverLimitChunk(m: U.Manager, max: nat, id: Id, account: Id, body: Bytes)
    requires |body| == max + 1
    ensures var m1, d := U.Created(m, id, account, 1), U.Delivery(body, |body|, true);
            var m2 := U.ChunkHandled(m1, id, account, 0, max, d, 1).0;
            && U.Gettable(m1, id, account) && U.FailsOverCap(max, m1, id, 0, d)
            && U.Gettable(m2, id, account) && id in m2.files && m2.files[id] == body && m2.sessions[id].size == max + 1
  {
    assert body[..|body|] == body && [] + body == body;
  }

  /** Submitting a session that is over the limit records it. */
  lemma OverLimitSubmit(w: World, cfg: Tiers.Limits, s: State, sub: Id, p: Id, id: Id, index: map<string, Id>)
    requires Tiers.Ordered(cfg) && p in s.db.reservations && s.db.reservations[p].account == sub && p !in s.db.signatures
    requires s.db.reservations[p].status == ReservationReserved
    requires U.Gettable(s.uploads, id, sub) && id in s.uploads.files && s.uploads.sessions[id].size == cfg.upload + 1
    ensures var db := Submitting(w, cfg, s, sub, p, FromUpload(id), 2026, 1, 1, index).0.db;
            p in db.signatures && db.signatures[p].size == cfg.upload + 1
  {
    hide K.Key, StrictVerify;
  }

  lemma SigningSteps(w: World, cfg: Tiers.Limits, s: State, e: Event)
    requires CA.LedgerOk(s.ledger) && Legal(s, e)
    ensures e.CreateUpload? ==> Step(w, cfg, s, e).0 == s.(uploads := U.Created(s.uploads, e.id, e.sub, e.now))
    ensures e.UploadChunk? ==>
      Step(w, cfg, s, e).0 == s.(uploads := U.ChunkHandled(s.uploads, e.id, e.sub, e.offset, cfg.upload, e.delivery, e.now).0)
    ensures e.Submit? ==>
      Step(w, cfg, s, e) == Submitting(w, cfg, s, e.sub, e.publicId, e.input, e.year, e.month, e.at, e.index)
  {
    hide U.Created, U.ChunkHandled, Submitting, CA.LedgerOk, Legal, StepAccounts, StepEnrolment;
  }

  lemma LegalSigning(s: State, e: Event)
    ensures e.CreateUpload? && e.id !in s.uploads.sessions ==> Legal(s, e)
    ensures e.UploadChunk? ==> Legal(s, e)
    ensures e.Submit? && SerialIndex(s.db.certificates, e.index) ==> Legal(s, e)
  {
    hide SerialIndex;
  }

  /** From any state with an open reservation: one chunk of `upload` + 1 bytes whose copy fails at its end
      leaves an empty session with all of it, and submitting that session records it. */
  lemma OverLimitRun(w: World, cfg: Tiers.Limits, s: State, sub: Id, p: Id, id: Id, index: map<string, Id>)
      returns (body: Bytes, run: seq<Event>)
    requires Tiers.Ordered(cfg) && CA.LedgerOk(s.ledger)
    requires p in s.db.reservations && s.db.reservations[p].account == sub && p !in s.db.signatures
    requires s.db.reservations[p].status == ReservationReserved
    requires id !in s.uploads.sessions && SerialIndex(s.db.certificates, index)
    ensures run == [CreateUpload(sub, id, 1), UploadChunk(sub, id, 0, U.Delivery(body, |body|, true), 1),
                    Submit(sub, p, FromUpload(id), 2026, 1, 1, index)]
    ensures LegalRun(w, cfg, s, run)
    ensures var db := After(w, cfg, s, run).db; p in db.signatures && db.signatures[p].size == cfg.upload + 1
  {
    hide U.Created, U.ChunkHandled, U.Gettable, U.FailsOverCap, Submitting, CA.LedgerOk, SerialIndex, Step, Legal;
    body := seq(cfg.upload + 1, _ => 0);
    OverLimitChunk(s.uploads, cfg.upload, id, sub, body);
    var m1 := U.Created(s.uploads, id, sub, 1);
    var m2 := U.ChunkHandled(m1, id, sub, 0, cfg.upload, U.Delivery(body, |body|, true), 1).0;
    OverLimitSubmit(w, cfg, s.(uploads := m2), sub, p, id, index);
    var e1, e2 := CreateUpload(sub, id, 1), UploadChunk(sub, id, 0, U.Delivery(body, |body|, true), 1);
    var e3 := Submit(sub, p, FromUpload(id), 2026, 1, 1, index);
    assert LegalRun(w, cfg, s, []) && After(w, cfg, s, []) == s;
    hide LegalRun, After;
    LegalSigning(s, e1);
    SigningSteps(w, cfg, s, e1);
    RunSnoc(w, cfg, s, [], e1);
    LegalSigning(s.(uploads := m1), e2);
    SigningSteps(w, cfg, s.(uploads := m1), e2);
    RunSnoc(w, cfg, s, [] + [e1], e2);
    LegalSigning(s.(uploads := m2), e3);
    SigningSteps(w, cfg, s.(uploads := m2), e3);
    RunSnoc(w, cfg, s, [] + [e1] + [e2], e3);
    run := [] + [e1] + [e2] + [e3];
  }

  /** Two runs, one after the other. */
  lemma {:induction false} RunConcat(w: World, cfg: Tiers.Limits, s: State, a: seq<Event>, b: seq<Event>)
    requires CA.LedgerOk(s.ledger) && LegalRun(w, cfg, s, a) && CA.LedgerOk(After(w, cfg, s, a).ledger)
    requires LegalRun(w, cfg, After(w, cfg, s, a), b)
    ensures LegalRun(w, cfg, s, a + b)
    ensures After(w, cfg, s, a + b) == After(w, cfg, After(w, cfg, s, a), b)
    decreases |a|
  {
    hide Step, Legal, CA.LedgerOk;
    if a == [] {
      assert a + b == b;
    } else {
      RunConcat(w, cfg, Step(w, cfg, s, a[0]).0, a[1..], b);
      assert (a + b)[1..] == a[1..] + b;
    }
  }

  /** For every ordered choice of limits there is such a run from an empty server. */
  lemma OverLimitRecordIsReachable(cfg: Tiers.Limits) returns (w: World, run: seq<Event>)
    requires Tiers.Ordered(cfg)
    ensures LegalRun(w, cfg, START, run)
    ensures var db := After(w, cfg, START, run).db; "pub" in db.signatures && db.signatures["pub"].size == cfg.upload + 1
  {
    w := SmallWorld();
    SmallWorldSigns();
    hide SmallWorld, FingerprintsIdentifyKeys, Issues, Signs, Step, Legal, LegalRun, After, Hex.Print, DbOk;
    run := ReservedRun(w, cfg, [1], [2]);
    var index := map[Hex.Print(w.parseCertificate([2]).value.serial) := "cert"];
    var _, rest := OverLimitRun(w, cfg, START.(db := Reserved0(w, [1], [2])), "acct", "pub", "up", index);
    RunConcat(w, cfg, START, run, rest);
    run := run + rest;
  }

  // ---- an accepted signature of a disabled account ----

  function Lifted(run: seq<Event>): (cs: seq<C.Call>) {
    if run == [] then [] else [C.Handler(run[0])] + Lifted(run[1..])
  }

  /** A run without submissions is a run of the concurrent receiver. */
  lemma {:induction false} LiftedRun(w: World, cfg: Tiers.Limits, s: State, run: seq<Event>)
    requires CA.LedgerOk(s.ledger) && LegalRun(w, cfg, s, run) && NoSubmission(run)
    ensures C.LegalRun(w, cfg, C.System(s, map[]), Lifted(run))
    ensures C.After(w, cfg, C.System(s, map[]), Lifted(run)) == C.System(After(w, cfg, s, run), map[])
    decreases |run|
  {
    hide Step, Legal, CA.LedgerOk;
    if run != [] {
      assert forall i :: 0 <= i < |run[1..]| ==> run[1..][i] == run[i + 1];
      var y, c := C.System(s, map[]), C.Handler(run[0]);
      LiftedRun(w, cfg, Step(w, cfg, s, run[0]).0, run[1..]);
      assert C.Next(w, cfg, y, c) == C.System(Step(w, cfg, s, run[0]).0, map[]);
      C.Prepend(w, cfg, y, c, Lifted(run[1..]));
    }
  }

  lemma {:induction false} ConcurrentConcat(w: World, cfg: Tiers.Limits, y: C.System, a: seq<C.Call>, b: seq<C.Call>)
    requires CA.LedgerOk(y.s.ledger) && C.LegalRun(w, cfg, y, a)
    requires C.LegalRun(w, cfg, C.After(w, cfg, y, a), b)
    ensures C.LegalRun(w, cfg, y, a + b) && C.After(w, cfg, y, a + b) == C.After(w, cfg, C.After(w, cfg, y, a), b)
    decreases |a|
  {
    hide C.Next, C.Legal, CA.LedgerOk;
    if a == [] {
      assert a + b == b;
    } else {
      ConcurrentConcat(w, cfg, C.Next(w, cfg, y, a[0]), a[1..], b);
      assert (a + b)[1..] == a[1..] + b;
    }
  }

  /** The document check and the certificate lookup, one after the other. */
  lemma ThroughLookup(w: World, cfg: Tiers.Limits, s: State, job: C.Job, pdf: Bytes, key: string, index: map<string, Id>)
      returns (run: seq<C.Call>, at: C.Stage)
    requires CA.LedgerOk(s.ledger) && SerialIndex(s.db.certificates, index)
    requires SignerOf(w, s.crl, job.p, pdf, 1).Some? && RowFor(s.db, job.res, SignerOf(w, s.crl, job.p, pdf, 1).value, index).Some?
    ensures C.LegalRun(w, cfg, C.System(s, map[1 := C.DeviceSeen(job, pdf, key)]), run)
    ensures C.After(w, cfg, C.System(s, map[1 := C.DeviceSeen(job, pdf, key)]), run) == C.System(s, map[1 := at])
    ensures C.PastLookup(at, job.res.account, job.p)
  {
    hide CA.LedgerOk, SerialIndex, SignerOf, RowFor, C.LegalRun, C.After;
    var signer := SignerOf(w, s.crl, job.p, pdf, 1).value;
    var info := RowFor(s.db, job.res, signer, index).value;
    at := C.Writing(job, C.Accepted(w, job, pdf, info, key), pdf);
    C.Stop(w, cfg, C.System(s, map[1 := at]));
    run := Back(w, cfg, s, C.Lookup(1, index), C.Verified(job, pdf, key, signer), at, at, []);
    run := Back(w, cfg, s, C.CheckDocument(1, 1), C.DeviceSeen(job, pdf, key), C.Verified(job, pdf, key, signer), at, run);
  }

  /** The reads of the acceptance guard, one after the other. */
  lemma ThroughGuard(w: World, cfg: Tiers.Limits, s: State, job: C.Job, pdf: Bytes, key: string, index: map<string, Id>)
      returns (run: seq<C.Call>, at: C.Stage)
    requires CA.LedgerOk(s.ledger) && SerialIndex(s.db.certificates, index)
    requires StrictVerify(w, s, job.p, job.res, pdf, 1, index).Some?
    ensures C.LegalRun(w, cfg, C.System(s, map[1 := C.Reading(job, pdf, key)]), run)
    ensures C.After(w, cfg, C.System(s, map[1 := C.Reading(job, pdf, key)]), run) == C.System(s, map[1 := at])
    ensures C.PastLookup(at, job.res.account, job.p)
  {
    hide CA.LedgerOk, SerialIndex, SignerOf, RowFor, C.LegalRun, C.After, HasMagic, OnActiveDevice;
    run, at := ThroughLookup(w, cfg, s, job, pdf, key, index);
    run := Back(w, cfg, s, C.CheckDevice(1), C.Unrecorded(job, pdf, key), C.DeviceSeen(job, pdf, key), at, run);
    run := Back(w, cfg, s, C.CheckRecord(1), C.Reading(job, pdf, key), C.Unrecorded(job, pdf, key), at, run);
  }

  /** A submission of the document, run up to and including the certificate lookup. */
  lemma UpToLookup(w: World, cfg: Tiers.Limits, s: State, pdf: Bytes, index: map<string, Id>) returns (run: seq<C.Call>, at: C.Stage)
    requires CA.LedgerOk(s.ledger) && "pub" in s.db.reservations && SerialIndex(s.db.certificates, index)
    requires s.db.reservations["pub"].account == "acct" && s.db.reservations["pub"].status == ReservationReserved
    requires |pdf| <= cfg.verify <= cfg.upload && StrictVerify(w, s, "pub", s.db.reservations["pub"], pdf, 1, index).Some?
    ensures C.LegalRun(w, cfg, C.System(s, map[]), run)
    ensures C.After(w, cfg, C.System(s, map[]), run) == C.System(s, map[1 := at])
    ensures C.PastLookup(at, "acct", "pub")
  {
    hide CA.LedgerOk, SerialIndex, StrictVerify, K.Key, C.LegalRun, C.After;
    var job := C.Job("pub", "acct", s.db.reservations["pub"], RawBody(pdf));
    var key := K.Key(2026, 1, "pub");
    run, at := ThroughGuard(w, cfg, s, job, pdf, key, index);
    assert pdf + [] == pdf;
    run := Back(w, cfg, s, C.Read(1, [], 2026, 1), C.Holding(job, pdf, |pdf|), C.Reading(job, pdf, key), at, run);
    run := Back(w, cfg, s, C.Open(1), C.Opening(job), C.Holding(job, pdf, |pdf|), at, run);
    run := Back(w, cfg, s, C.Complete(1), C.Loaded(job), C.Opening(job), at, run);
    C.Prepend(w, cfg, C.System(s, map[]), C.Load(1, "acct", "pub", RawBody(pdf)), run);
    run := [C.Load(1, "acct", "pub", RawBody(pdf))] + run;
  }

  /** One call that takes the only handler from one stage to the next, in front of a run. */
  lemma Back(w: World, cfg: Tiers.Limits, s: State, c: C.Call, on: C.Stage, next: C.Stage, at: C.Stage, rest: seq<C.Call>) returns (run: seq<C.Call>)
    requires CA.LedgerOk(s.ledger) && C.Legal(C.System(s, map[1 := on]), c)
    requires C.Next(w, cfg, C.System(s, map[1 := on]), c) == C.System(s, map[1 := next])
    requires C.LegalRun(w, cfg, C.System(s, map[1 := next]), rest)
    requires C.After(w, cfg, C.System(s, map[1 := next]), rest) == C.System(s, map[1 := at])
    ensures C.LegalRun(w, cfg, C.System(s, map[1 := on]), run)
    ensures C.After(w, cfg, C.System(s, map[1 := on]), run) == C.System(s, map[1 := at])
  {
    hide *;
    C.Prepend(w, cfg, C.System(s, map[1 := on]), c, rest);
    run := [c] + rest;
  }

  lemma SmallGuardPasses()
    ensures var w := SmallWorld();
            Issues(w, [1], [2]) &&
            var s := START.(db := Reserved0(w, [1], [2]));
            var index := map[Hex.Print(10) := "cert"];
            && SerialIndex(s.db.certificates, index)
            && StrictVerify(w, s, "pub", s.db.reservations["pub"], PDF_MAGIC, 1, index).Some?
  {
    SmallWorldSigns();
    var w := SmallWorld();
    hide Hex.Print;
    var s := START.(db := Reserved0(w, [1], [2]));
    var x := SmallCertificate();
    assert SoleSigner(w, PDF_MAGIC, 1, "pub", Hex.Print(x.serial), x.fingerprint);
    assert Acceptable(w, s, "pub", s.db.reservations["pub"], PDF_MAGIC, 1, map[Hex.Print(10) := "cert"]);
    StrictVerifyIff(w, s, "pub", s.db.reservations["pub"], PDF_MAGIC, 1, map[Hex.Print(10) := "cert"]);
  }

  const DISABLE := DisableAccount("acct", CascadeRun(["cert"], NoCa, 1))

  lemma DisableIsLegal(w: World)
    requires Issues(w, [1], [2])
    ensures var s := START.(db := Reserved0(w, [1], [2])); Legal(s, DISABLE) && ClientTarget(s.db, "acct") && "pub" !in s.db.signatures
  {
    hide Hex.Print, Issues;
  }

  /** A submission past the lookup is reachable, with its account still enabled. */
  lemma InFlightIsReachable(cfg: Tiers.Limits) returns (w: World, run: seq<C.Call>, at: C.Stage)
    requires 5 <= cfg.verify <= cfg.upload
    ensures Issues(w, [1], [2]) && C.LegalRun(w, cfg, C.System(START, map[]), run)
    ensures C.After(w, cfg, C.System(START, map[]), run) == C.System(START.(db := Reserved0(w, [1], [2])), map[1 := at])
    ensures C.PastLookup(at, "acct", "pub")
  {
    w := SmallWorld();
    SmallGuardPasses();
    var s := START.(db := Reserved0(w, [1], [2]));
    assert s.db.reservations["pub"] == Reservation("acct", "dev", "", ReservationReserved);
    hide SmallWorld, Issues, Reserved0, StrictVerify, LegalRun, After, C.LegalRun, C.After, C.Next, Hex.Print, Legal, SerialIndex, Step;
    var first := ReservedRun(w, cfg, [1], [2]);
    LiftedRun(w, cfg, START, first);
    var second;
    second, at := UpToLookup(w, cfg, s, PDF_MAGIC, map[Hex.Print(10) := "cert"]);
    ConcurrentConcat(w, cfg, C.System(START, map[]), Lifted(first), second);
    run := Lifted(first) + second;
  }

  /** The cascade can come between the lookup and the record: there is a run in which the account is
      disabled, left with no active certificate and no record, and then gets an accepted signature
      without having been approved or enabled again. */
  lemma AcceptedAfterDisabling(cfg: Tiers.Limits) returns (w: World, before: seq<C.Call>, after: seq<C.Call>)
    requires 5 <= cfg.verify <= cfg.upload
    ensures C.LegalRun(w, cfg, C.System(START, map[]), before)
    ensures var y := C.After(w, cfg, C.System(START, map[]), before);
            && C.Legal(y, C.Handler(DISABLE))
            && var y' := C.Next(w, cfg, y, C.Handler(DISABLE));
               && Dormant(y'.s.db, "acct")
               && C.LegalRun(w, cfg, y', after) && C.NeverReactivatedIn(w, cfg, y', after, "acct")
               && C.NewlyAccepted(y', C.After(w, cfg, y', after), "acct", "pub")
  {
    hide Issues, Reserved0, C.LegalRun, C.After, C.Next, C.NeverReactivatedIn, Dormant, Legal, C.Sound, CA.LedgerOk, Step;
    var at;
    w, before, at := InFlightIsReachable(cfg);
    DisableIsLegal(w);
    var y := C.System(START.(db := Reserved0(w, [1], [2])), map[1 := at]);
    StartSound(w, cfg);
    C.RunKeepsSound(w, cfg, C.System(START, map[]), before);
    C.DisableWithSubmissionsInFlight(w, cfg, y, DISABLE, "pub");
    var y' := C.Next(w, cfg, y, C.Handler(DISABLE));
    assert 1 in y.threads && C.PastLookup(y.threads[1], "acct", "pub");
    after :| C.LegalRun(w, cfg, y', after) && C.NeverReactivatedIn(w, cfg, y', after, "acct") && C.NewlyAccepted(y', C.After(w, cfg, y', after), "acct", "pub");
  }

  lemma StartSound(w: World, cfg: Tiers.Limits)
    ensures C.Sound(w, cfg, C.System(START, map[]))
  {
  }
}
