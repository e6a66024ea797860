/** The handlers as the server runs them: sequences of store calls on mutable state.  Each is proved
    to perform exactly the step of the state machine that bears its name. */
module Handlers {
  import opened Basics
  import opened Pki
  import opened Store
  import opened Receiver
  import opened Revocation
  import Hex
  import CA = CaLedger
  import V = Verification
  import U = Uploads
  import K = ObjectKey
  import Tiers

  /** One turn of the cascade: revoke the certificate, mark its device lost. */
  function RevokedOne(db: Db, account: Id, id: Id): (db': Db)
    requires id in db.certificates
  {
    var db1 := WithRevoked(db, id);
    var d := db.certificates[id].device;
    if OwnsDevice(db1, account, d) then WithLost(db1, d) else db1
  }

  lemma CarriesOneMore(db: Db, ids: set<Id>, id: Id, x: Id)
    requires id in db.certificates
    ensures Carries(db, ids + {id}, x) <==> Carries(db, ids, x) || x == db.certificates[id].device
  {
    if Carries(db, ids, x) {
      var k :| k in ids && k in db.certificates && db.certificates[k].device == x;
      assert k in ids + {id};
    }
    if x == db.certificates[id].device { assert id in ids + {id}; }
  }

  /** Turn by turn or all at once, the tables come out the same. */
  lemma RevokedByOneMore(db: Db, account: Id, ids: set<Id>, id: Id)
    requires id in db.certificates && id !in ids
    ensures id in RevokedBy(db, account, ids).certificates
    ensures RevokedBy(db, account, ids).certificates[id] == db.certificates[id]
    ensures RevokedBy(db, account, ids + {id}) == RevokedOne(RevokedBy(db, account, ids), account, id)
  {
    hide Carries;
    forall x | x in db.devices ensures Carries(db, ids + {id}, x) <==> Carries(db, ids, x) || x == db.certificates[id].device {
      CarriesOneMore(db, ids, id, x);
    }
    CertificatesOneMore(db, account, ids, id);
    DevicesOneMore(db, account, ids, id);
  }

  lemma CertificatesOneMore(db: Db, account: Id, ids: set<Id>, id: Id)
    requires id in db.certificates && id !in ids
    ensures RevokedBy(db, account, ids + {id}).certificates == RevokedOne(RevokedBy(db, account, ids), account, id).certificates
  {
    hide Carries;
  }

  lemma DevicesOneMore(db: Db, account: Id, ids: set<Id>, id: Id)
    requires id in db.certificates && id !in ids
    requires forall x :: x in db.devices ==> (Carries(db, ids + {id}, x) <==> Carries(db, ids, x) || x == db.certificates[id].device)
    ensures RevokedBy(db, account, ids + {id}).devices == RevokedOne(RevokedBy(db, account, ids), account, id).devices
  {
    hide Carries, RevokedOne;
    var mid := RevokedBy(db, account, ids);
    RevokedOneDevices(mid, account, id);
    var a, b := RevokedBy(db, account, ids + {id}).devices, RevokedOne(mid, account, id).devices;
    forall x | x in db.devices ensures x in a && x in b && a[x] == b[x] {
      assert Carries(db, ids + {id}, x) <==> Carries(db, ids, x) || x == db.certificates[id].device;
    }
    assert a.Keys == db.devices.Keys == b.Keys;
  }

  lemma RevokedOneDevices(db: Db, account: Id, id: Id)
    requires id in db.certificates
    ensures var d, ds := db.certificates[id].device, RevokedOne(db, account, id).devices;
            && ds.Keys == db.devices.Keys
            && forall x :: x in db.devices ==>
                 ds[x] == if x == d && db.devices[x].account == account then db.devices[x].(status := DeviceLost) else db.devices[x]
  {
  }

  lemma RevokedByNone(db: Db, account: Id)
    ensures RevokedBy(db, account, {}) == db
  {
    assert RevokedBy(db, account, {}).certificates == db.certificates;
    assert RevokedBy(db, account, {}).devices == db.devices;
  }

  /** The active certificates among the first entries of a listing. */
  ghost function ActiveIn(db: Db, list: seq<Id>): (ids: set<Id>) {
    set k | k in list && k in db.certificates && db.certificates[k].status == CertActive
  }

  lemma ActiveInSnoc(db: Db, list: seq<Id>, id: Id)
    requires id !in list && id in db.certificates
    ensures ActiveIn(db, list + [id]) == ActiveIn(db, list) + (if db.certificates[id].status == CertActive then {id} else {})
    ensures id !in ActiveIn(db, list)
  {
  }

  /** Where the cascade stands after the first `k` entries of the listing. */
  ghost predicate CascadeProgress(db: Db, l: CA.Ledger, account: Id, list: seq<Id>, reached: set<Id>, now: Time,
                                  k: nat, db': Db, l': CA.Ledger, n: nat)
    requires k <= |list|
  {
    && ActiveIn(db, list[..k]) <= ActiveOf(db, account)
    && db' == RevokedBy(db, account, ActiveIn(db, list[..k]))
    && l' == LedgerAfter(l, db, list[..k], reached, now)
    && n == |ActiveIn(db, list[..k])|
  }

  lemma LedgerTurn(l: CA.Ledger, db: Db, list: seq<Id>, reached: set<Id>, now: Time, k: nat)
    requires k < |list| && list[k] in db.certificates
    ensures var before := LedgerAfter(l, db, list[..k], reached, now);
            var c := db.certificates[list[k]];
            LedgerAfter(l, db, list[..k + 1], reached, now) ==
              if list[k] in reached && c.status == CertActive
              then CA.RevokeStep(before, c.serial, CA.CESSATION, now, true).0 else before
  {
    assert list[..k + 1][..k] == list[..k];
  }

  lemma CascadeTurn(db: Db, l: CA.Ledger, account: Id, list: seq<Id>, reached: set<Id>, now: Time, k: nat, db': Db, l': CA.Ledger, n: nat)
    requires k < |list| && Distinct(list) && list[k] in db.certificates && db.certificates[list[k]].account == account
    requires CascadeProgress(db, l, account, list, reached, now, k, db', l', n)
    ensures var c := db.certificates[list[k]];
            if c.status == CertActive then
              && list[k] in db'.certificates && db'.certificates[list[k]] == c
              && CascadeProgress(db, l, account, list, reached, now, k + 1, RevokedOne(db', account, list[k]),
                   if list[k] in reached then CA.RevokeStep(l', c.serial, CA.CESSATION, now, true).0 else l', n + 1)
            else CascadeProgress(db, l, account, list, reached, now, k + 1, db', l', n)
  {
    hide CA.RevokeStep, RevokedOne, RevokedBy, LedgerAfter;
    var id := list[k];
    assert list[..k + 1] == list[..k] + [id];
    assert id !in list[..k];
    ActiveInSnoc(db, list[..k], id);
    LedgerTurn(l, db, list, reached, now, k);
    if db.certificates[id].status == CertActive {
      RevokedByOneMore(db, account, ActiveIn(db, list[..k]), id);
    }
  }

  lemma CascadeDone(db: Db, l: CA.Ledger, account: Id, list: seq<Id>, reached: set<Id>, now: Time, db': Db, l': CA.Ledger, n: nat)
    requires AccountListing(db.certificates, account, list)
    requires CascadeProgress(db, l, account, list, reached, now, |list|, db', l', n)
    ensures db' == RevokedBy(db, account, ActiveOf(db, account)) && l' == LedgerAfter(l, db, list, reached, now)
    ensures n == |ActiveOf(db, account)| && (n > 0 <==> ActiveOf(db, account) != {})
  {
    hide RevokedBy, LedgerAfter;
    assert list[..|list|] == list;
    assert ActiveIn(db, list) == ActiveOf(db, account);
  }

  class Server {
    const w: World
    const cfg: Tiers.Limits
    const st: Memory
    const uploads: U.UploadManager
    const ca: CA.CaAdmin
    var crl: CrlFile

    ghost function View(): (s: State)
      reads this, st, uploads, ca
    {
      State(st.View(), crl, ca.ledger, uploads.View())
    }

    constructor (w: World, cfg: Tiers.Limits, crl: CrlFile)
      ensures View() == State(EMPTY_DB, crl, CA.EMPTY_LEDGER, U.EMPTY)
      ensures this.w == w && this.cfg == cfg && fresh(st) && fresh(uploads) && fresh(ca)
    {
      this.w, this.cfg, this.crl := w, cfg, crl;
      var memory := new Memory();
      var manager := new U.UploadManager();
      var admin := new CA.CaAdmin();
      this.st, this.uploads, this.ca := memory, manager, admin;
    }

    /** Account registration. */
    method Register(id: Id, email: string) returns (reply: Reply)
      modifies st
      ensures (View(), reply) == OnDb(old(View()), AddAccount(old(st.View()), id, Account(email, RoleUser, AccountPending)))
    {
      var ok := st.CreateAccount(id, Account(email, RoleUser, AccountPending));
      return if ok then Done else Refused;
    }

    method ReportLost(sub: Id, device: Id) returns (reply: Reply)
      modifies st
      ensures OwnsDevice(old(st.View()), sub, device) ==> reply == Done && View() == old(View()).(db := WithLost(old(st.View()), device))
      ensures !OwnsDevice(old(st.View()), sub, device) ==> reply == Refused && View() == old(View())
    {
      if device !in st.devices || st.devices[device].account != sub { return Refused; }
      var _ := st.SetDeviceStatus(device, DeviceLost);
      return Done;
    }

    /** Validates an issued certificate against the chain and the enrolled CSR, then records it. */
    method BindIssuedCert(enrollment: Id, issue: Issue) returns (reply: Reply)
      requires enrollment in st.enrollments
      modifies st
      ensures (st.View(), reply) == Bind(w, old(st.View()), enrollment, issue)
    {
      var e := st.enrollments[enrollment];
      var parsed := w.parseCertificate(issue.pem);
      if parsed.None? { return Refused; }
      var x := parsed.value;
      if !x.mldsa || issue.at < x.notBefore || issue.at > x.notAfter || x.isCA || !x.documentSigning { return Refused; }
      if !w.chains(x, issue.at) { return Refused; }
      var key := w.parseCsr(e.csr);
      if key.None? || key.value != x.key { return Refused; }
      st.CreateCertificate(issue.certificate,
        Certificate(enrollment, e.device, e.account, Hex.Print(x.serial), x.fingerprint, issue.pem, x.notBefore, CertActive));
      var _ := st.SetEnrollmentStatus(enrollment, EnrollmentIssued);
      return Done;
    }

    method SubmitCsr(sub: Id, device: Id, csr: Bytes, enrollment: Id, online: Option<Issue>) returns (reply: Reply)
      modifies st
      ensures (View(), reply) == OnDb(old(View()), EnrollCsr(w, old(st.View()), sub, device, csr, enrollment, online))
    {
      if device !in st.devices || st.devices[device].account != sub { return Refused; }
      if w.parseCsr(csr).None? { return Refused; }
      st.CreateEnrollment(enrollment, Enrollment(device, sub, csr, EnrollmentSubmitted));
      if online.Some? && sub in st.accounts && st.accounts[sub].status == AccountActive {
        var _ := BindIssuedCert(enrollment, online.value);
      }
      return Done;
    }

    method Reserve(sub: Id, device: Id, sha512: string, publicId: Id) returns (reply: Reply, ghost newest: Option<Id>)
      modifies st
      ensures NewestOfDevice(old(st.certificates), device, newest)
      ensures (View(), reply) == OnDb(old(View()), Reserving(old(st.View()), sub, device, sha512, newest, publicId))
    {
      var found := st.CertificateByDevice(device);
      newest := found;
      if device == "" { return Refused, found; }
      if device !in st.devices || st.devices[device].account != sub { return Refused, found; }
      if st.devices[device].status != DeviceActive { return Refused, found; }
      if found.None? || st.certificates[found.value].status != CertActive { return Refused, found; }
      st.CreateReservation(publicId, Reservation(sub, device, sha512, ReservationReserved));
      return Done, found;
    }

    /** Revokes every active certificate of the account, tells the CA about each, marks their devices
        lost, and swaps in a fresh CRL. */
    method DisableCascade(account: Id, online: bool, reach: Id -> bool, publish: PublishOutcome, now: Time)
        returns (n: nat, ghost run: CascadeRun)
      requires CA.LedgerOk(ca.ledger) && now != 0
      modifies this, st, ca
      ensures run.now == now && AccountListing(old(st.certificates), account, run.list)
      ensures run.ca == if online then CaOnline((set k | k in run.list && reach(k)), publish) else NoCa
      ensures (View(), n) == Cascade(old(View()), account, run)
    {
      hide RevokedBy, CA.LedgerOk, LedgerAfter, AccountListing, CascadeProgress, ActiveOf, CA.CrlOf;
      var list := st.CertificatesByAccount(account);
      ghost var start := View();
      ghost var reached: set<Id> := if online then set k | k in list && reach(k) else {};
      run := CascadeRun(list, if online then CaOnline(reached, publish) else NoCa, now);
      n := RevokeListed(account, list, online, reach, reached, now);
      CascadeDone(start.db, start.ledger, account, list, reached, now, st.View(), ca.ledger, n);
      LedgerAfterOk(start.ledger, start.db, list, reached, now);
      if n > 0 && online { PublishFresh(publish, now); }
    }

    /** The cascade's loop over the account's certificates. */
    method RevokeListed(account: Id, list: seq<Id>, online: bool, reach: Id -> bool, ghost reached: set<Id>, now: Time) returns (n: nat)
      requires AccountListing(st.certificates, account, list)
      requires reached == if online then set k | k in list && reach(k) else {}
      modifies st, ca`ledger
      ensures CascadeProgress(old(st.View()), old(ca.ledger), account, list, reached, now, |list|, st.View(), ca.ledger, n)
    {
      ghost var db, ledger := st.View(), ca.ledger;
      var certs := st.certificates;
      n := 0;
      RevokedByNone(db, account);
      hide CA.RevokeStep, RevokedOne, RevokedBy, LedgerAfter;
      for k := 0 to |list|
        invariant CascadeProgress(db, ledger, account, list, reached, now, k, st.View(), ca.ledger, n)
      {
        CascadeTurn(db, ledger, account, list, reached, now, k, st.View(), ca.ledger, n);
        if certs[list[k]].status == CertActive {
          RevokeOne(account, list[k], online && reach(list[k]), now);
          n := n + 1;
        }
      }
    }

    /** Revokes one certificate in the store and, when the call gets through, at the CA. */
    method RevokeOne(account: Id, id: Id, reached: bool, now: Time)
      requires id in st.certificates
      modifies st, ca`ledger
      ensures st.View() == RevokedOne(old(st.View()), account, id)
      ensures ca.ledger == if reached
        then CA.RevokeStep(old(ca.ledger), old(st.certificates[id].serial), CA.CESSATION, now, true).0 else old(ca.ledger)
    {
      var c := st.certificates[id];
      var _ := st.RevokeCertificate(id);
      if reached {
        var _ := ca.Revoke(c.serial, CA.CESSATION, now, true);
      }
      if c.device in st.devices && st.devices[c.device].account == account {
        var _ := st.SetDeviceStatus(c.device, DeviceLost);
      }
    }

    /** Asks the CA for a fresh CRL and swaps it in when it arrives. */
    method PublishFresh(publish: PublishOutcome, now: Time)
      requires CA.LedgerOk(ca.ledger)
      modifies this`crl, ca
      ensures (ca.ledger, crl) == Published(old(ca.ledger), old(crl), CaOnline({}, publish), true, now)
    {
      match publish {
        case PublishFailed =>
        case PublishLost =>
          CA.SoundLedgerIsSigned(ca.ledger, now, CA.SEVEN_DAYS);
          var _ := ca.Publish(now, CA.SEVEN_DAYS, CA.NoFault);
        case PublishDelivered =>
          CA.SoundLedgerIsSigned(ca.ledger, now, CA.SEVEN_DAYS);
          var made := ca.Publish(now, CA.SEVEN_DAYS, CA.NoFault);
          if made.Some? { crl := CrlFile(made.value); }
      }
    }

    method DisableAccount(id: Id, online: bool, reach: Id -> bool, publish: PublishOutcome, now: Time)
        returns (reply: Reply, ghost run: CascadeRun)
      requires CA.LedgerOk(ca.ledger) && now != 0
      modifies this, st, ca
      ensures run.now == now
      ensures reply.CertificatesRevoked? ==> LegalCascade(old(st.View()), id, run)
      ensures (View(), reply) == Disable(old(View()), id, run)
    {
      run := CascadeRun([], NoCa, now);
      if id !in st.accounts || st.accounts[id].role != RoleUser { return Refused, run; }
      var _ := st.SetAccountStatus(id, AccountDisabled);
      var n;
      n, run := DisableCascade(id, online, reach, publish, now);
      return CertificatesRevoked(n), run;
    }

    method DeleteAccount(id: Id, erasable: bool, online: bool, reach: Id -> bool, publish: PublishOutcome, now: Time)
        returns (reply: Reply, ghost run: CascadeRun)
      requires CA.LedgerOk(ca.ledger) && now != 0
      modifies this, st, ca
      ensures reply.CertificatesRevoked? ==> LegalCascade(old(st.View()), id, run)
      ensures run.now == now && (View(), reply) == Delete(old(View()), id, run, erasable)
    {
      reply, run := DisableAccount(id, online, reach, publish, now);
      if !reply.Refused? && erasable {
        var _ := st.DeleteAccount(id);
      }
    }

    /** The submission checks. */
    method StrictVerify(publicId: Id, res: Reservation, pdf: Bytes, at: Time) returns (r: Option<VerifiedInfo>, ghost index: map<string, Id>)
      ensures SerialIndex(st.certificates, index)
      ensures r == Receiver.StrictVerify(w, View(), publicId, res, pdf, at, index)
    {
      index := AnyIndex(st.certificates);
      if |pdf| < 5 || pdf[..5] != PDF_MAGIC { return None, index; }
      if publicId in st.signatures { return None, index; }
      if res.device !in st.devices || st.devices[res.device].status != DeviceActive { return None, index; }
      var vr := V.VerifyPDF(w, pdf, V.Options(crl, true, at));
      if vr.None? || |vr.value.signatures| != 1 { return None, index; }
      var sig := vr.value.signatures[0];
      if !vr.value.valid || !sig.valid || !sig.mldsa || !sig.trustedChain || sig.revoked || sig.PublicId() != publicId { return None, index; }
      var found := st.CertificateBySerial(sig.serial);
      if found.None? { return None, index; }
      index := IndexFor(st.certificates, found.value);
      var cert := st.certificates[found.value];
      if cert.account != res.account || cert.device != res.device || cert.status != CertActive || cert.fingerprint != sig.fingerprint {
        return None, index;
      }
      return Some(VerifiedInfo(found.value, cert.serial, cert.fingerprint)), index;
    }

    method SubmitDocument(sub: Id, publicId: Id, input: Input, year: nat, month: nat, at: Time)
        returns (reply: Reply, ghost index: map<string, Id>)
      modifies st, uploads
      ensures SerialIndex(old(st.certificates), index)
      ensures (View(), reply) == Submitting(w, cfg, old(View()), sub, publicId, input, year, month, at, index)
    {
      hide Receiver.StrictVerify, K.Key, SerialIndex;
      index := AnyIndex(st.certificates);
      if publicId !in st.reservations || st.reservations[publicId].account != sub { return Refused, index; }
      var res := st.reservations[publicId];
      if res.status == ReservationAccepted && publicId in st.signatures { return Recorded(st.signatures[publicId]), index; }
      var body: Bytes, size: nat;
      match input {
        case RawBody(b) =>
          if |b| > cfg.upload { return Refused, index; }
          body, size := b, |b|;
        case FromUpload(id) =>
          var found := uploads.Get(id, sub);
          if !found || id !in uploads.files { return Refused, index; }
          body, size := uploads.files[id], uploads.sessions[id].size;
      }
      var key := K.Key(year, month, publicId);
      var sig: Signature;
      if size <= cfg.verify {
        var info;
        info, index := StrictVerify(publicId, res, body, at);
        if info.None? { return Refused, index; }
        sig := Signature(res.account, res.device, info.value.certificate, info.value.serial, info.value.fingerprint,
                         res.originalSha512, w.sha512(body), key, |body|, VerificationAccepted);
      } else {
        sig := Signature(res.account, res.device, "", "", "", res.originalSha512, w.sha512(body), key, size, VerificationStoredOnly);
      }
      st.PutObject(key, body);
      var ok := st.CreateSignature(publicId, sig);
      if !ok { return Refused, index; }
      var _ := st.SetReservationStatus(publicId, ReservationAccepted);
      if input.FromUpload? { uploads.Discard(input.id); }
      return Recorded(sig), index;
    }
  }

  ghost function AnyIndex(certificates: map<Id, Certificate>): (index: map<string, Id>)
    ensures SerialIndex(certificates, index)
  {
    var serials := set k | k in certificates :: certificates[k].serial;
    map sn | sn in serials :: var k :| k in certificates && certificates[k].serial == sn; k
  }
}
