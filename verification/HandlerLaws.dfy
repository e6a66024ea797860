/** What each handler does, told in its caller's terms: when it succeeds, what it writes then, and that
    a refusal changes nothing. */
module HandlerLaws {
  import opened Basics
  import opened Pki
  import opened Store
  import opened Receiver
  import opened ReceiverInvariant
  import opened ReceiverTheorems
  import Hex
  import CA = CaLedger
  import V = Verification
  import U = Uploads
  import K = ObjectKey
  import Tiers

  // ---- binding a certificate ----

  /** The PEM is a certificate for the CSR's key: ML-DSA, not a CA, for signing documents, in date, and
      chaining to the root. */
  predicate Bindable(w: World, csr: Bytes, pem: Bytes, at: Time) {
    match w.parseCertificate(pem)
    case None => false
    case Some(x) =>
      && x.mldsa && !x.isCA && x.documentSigning
      && x.notBefore <= at && at <= x.notAfter
      && w.chains(x, at)
      && w.parseCsr(csr) == Some(x.key)
  }

  /** The row a bound certificate gets. */
  ghost predicate RowOf(w: World, db: Db, enrollment: Id, pem: Bytes, c: Certificate)
    requires enrollment in db.enrollments
  {
    && w.parseCertificate(pem).Some?
    && var x := w.parseCertificate(pem).value;
       && c.pem == pem && c.enrollment == enrollment && c.status == CertActive
       && c.device == db.enrollments[enrollment].device && c.account == db.enrollments[enrollment].account
       && Hex.Parse(c.serial) == Some(x.serial) && c.fingerprint == x.fingerprint && c.notBefore == x.notBefore
  }

  /** A certificate is bound exactly when it is bindable; then its row is added and the enrolment is
      marked issued, and otherwise nothing changes. */
  lemma BindIff(w: World, db: Db, enrollment: Id, issue: Issue)
    requires enrollment in db.enrollments && issue.certificate !in db.certificates
    ensures var (b, reply) := Bind(w, db, enrollment, issue);
            var e := db.enrollments[enrollment];
            if Bindable(w, e.csr, issue.pem, issue.at) then
              && reply == Done
              && issue.certificate in b.certificates && RowOf(w, db, enrollment, issue.pem, b.certificates[issue.certificate])
              && b == db.(certificates := db.certificates[issue.certificate := b.certificates[issue.certificate]],
                          enrollments := db.enrollments[enrollment := Enrollment(e.device, e.account, e.csr, EnrollmentIssued)],
                          used := db.used + {issue.certificate})
            else reply == Refused && b == db
  {
    if w.parseCertificate(issue.pem).Some? { Hex.RoundTrip(w.parseCertificate(issue.pem).value.serial); }
    hide Hex.Print, Hex.Parse;
  }

  /** A CSR is enrolled exactly for the caller's own device and only if it parses; a certificate comes with
      it exactly when the CA delivered a bindable one and the account is active. */
  lemma EnrollIff(w: World, db: Db, sub: Id, device: Id, csr: Bytes, enrollment: Id, online: Option<Issue>)
    requires enrollment !in db.enrollments && (online.Some? ==> online.value.certificate !in db.certificates)
    ensures var (b, reply) := EnrollCsr(w, db, sub, device, csr, enrollment, online);
            var accepted := device in db.devices && db.devices[device].account == sub && w.parseCsr(csr).Some?;
            var issued := && accepted && online.Some? && Bindable(w, csr, online.value.pem, online.value.at)
                          && sub in db.accounts && db.accounts[sub].status == AccountActive;
            && reply == (if accepted then Done else Refused)
            && (!accepted ==> b == db)
            && (accepted ==> b.enrollments == db.enrollments[enrollment :=
                  Enrollment(device, sub, csr, if issued then EnrollmentIssued else EnrollmentSubmitted)])
            && (issued ==>
                  && online.value.certificate in b.certificates
                  && b.certificates == db.certificates[online.value.certificate := b.certificates[online.value.certificate]]
                  && RowOf(w, b, enrollment, online.value.pem, b.certificates[online.value.certificate]))
            && (!issued ==> b.certificates == db.certificates)
            && b == db.(enrollments := b.enrollments, certificates := b.certificates, used := b.used)
  {
    hide Bind, Hex.Print, Hex.Parse, Bindable;
    if OwnsDevice(db, sub, device) && w.parseCsr(csr).Some? {
      var db1 := db.(enrollments := db.enrollments[enrollment := Enrollment(device, sub, csr, EnrollmentSubmitted)],
                     used := db.used + {enrollment});
      if online.Some? { BindIff(w, db1, enrollment, online.value); }
    }
  }

  // ---- reserving ----

  /** A reservation is made exactly on the caller's own active device whose newest certificate is active. */
  lemma ReserveIff(db: Db, sub: Id, device: Id, sha512: string, newest: Option<Id>, publicId: Id)
    requires NewestOfDevice(db.certificates, device, newest)
    ensures var (b, reply) := Reserving(db, sub, device, sha512, newest, publicId);
            if && device != ""
               && device in db.devices && db.devices[device].account == sub && db.devices[device].status == DeviceActive
               && (exists k :: && k in db.certificates && db.certificates[k].device == device && newest == Some(k)
                               && db.certificates[k].status == CertActive)
            then
              && reply == Done
              && b == db.(reservations := db.reservations[publicId := Reservation(sub, device, sha512, ReservationReserved)],
                          used := db.used + {publicId})
            else reply == Refused && b == db
  {
  }

  // ---- a lost device ----

  /** Between two states the device gained no reservation and no accepted record. */
  ghost predicate DeviceQuiet(a: Db, b: Db, d: Id) {
    && (forall p :: p in b.reservations && b.reservations[p].device == d ==> p in a.reservations)
    && (forall p :: p in b.signatures && b.signatures[p].device == d && b.signatures[p].verification == VerificationAccepted ==>
          p in a.signatures)
  }

  ghost predicate IsLost(db: Db, d: Id) {
    d in db.devices && db.devices[d].status == DeviceLost
  }

  lemma RecordOnLost(s: State, p: Id, key: string, body: Bytes, sig: Signature, input: Input, d: Id)
    requires p in s.db.reservations && (sig.device == d ==> sig.verification == VerificationStoredOnly)
    ensures DeviceQuiet(s.db, Record(s, p, key, body, sig, input).0.db, d)
  {
  }

  lemma SubmitOnLost(w: World, cfg: Tiers.Limits, s: State, sub: Id, p: Id, input: Input, y: nat, m: nat, at: Time, index: map<string, Id>, d: Id)
    requires IsLost(s.db, d)
    ensures DeviceQuiet(s.db, Submitting(w, cfg, s, sub, p, input, y, m, at, index).0.db, d)
  {
    hide SignerOf, RowFor, K.Key, SignedInput, HasMagic, Record;
    if p in s.db.reservations && s.db.reservations[p].account == sub {
      var res := s.db.reservations[p];
      var got := SignedInput(cfg, s.uploads, sub, input);
      if got.Some? {
        var (body, size) := got.value;
        var key := K.Key(y, m, p);
        var v := StrictVerify(w, s, p, res, body, at, index);
        if v.Some? {
          RecordOnLost(s, p, key, body,
            Signature(res.account, res.device, v.value.certificate, v.value.serial, v.value.fingerprint, res.originalSha512,
                      w.sha512(body), key, |body|, VerificationAccepted), input, d);
        }
        RecordOnLost(s, p, key, body,
          Signature(res.account, res.device, "", "", "", res.originalSha512, w.sha512(body), key, size, VerificationStoredOnly), input, d);
      }
    }
  }

  lemma StepOnLost(w: World, cfg: Tiers.Limits, s: State, e: Event, d: Id)
    requires CA.LedgerOk(s.ledger) && Legal(s, e) && IsLost(s.db, d)
    ensures DeviceQuiet(s.db, Step(w, cfg, s, e).0.db, d)
  {
    hide StepAccounts, StepEnrolment, Submitting, CA.LedgerOk, Legal, U.ChunkHandled, U.Reaped, U.Created;
    if OnAccounts(e) {
      AccountsFrame(s, e);
    } else if OnEnrolment(e) {
      EnrolmentFrame(w, s, e);
    } else if e.Submit? {
      SubmitOnLost(w, cfg, s, e.sub, e.publicId, e.input, e.year, e.month, e.at, e.index, d);
    } else {
      SigningFrame(w, cfg, s, e);
    }
  }

  lemma QuietThrough(a: Db, b: Db, c: Db, d: Id)
    requires DeviceQuiet(a, b, d) && DeviceQuiet(b, c, d) && Grows(b, c)
    ensures DeviceQuiet(a, c, d)
  {
  }

  /** A lost device stays lost, and over any run it gains no reservation and no accepted record. */
  lemma {:induction false} LostDeviceIsInert(w: World, cfg: Tiers.Limits, s: State, run: seq<Event>, d: Id)
    requires Inv(w, cfg, s) && LegalRun(w, cfg, s, run) && IsLost(s.db, d)
    ensures IsLost(After(w, cfg, s, run).db, d) && DeviceQuiet(s.db, After(w, cfg, s, run).db, d)
    decreases |run|
  {
    hide DbOk, Step, Legal, CA.LedgerOk, U.SessionsOk;
    if run != [] {
      var s1 := Step(w, cfg, s, run[0]).0;
      StepKeeps(w, cfg, s, run[0]);
      StepOnLost(w, cfg, s, run[0], d);
      assert IsLost(s1.db, d);
      LostDeviceIsInert(w, cfg, s1, run[1..], d);
      RunKeeps(w, cfg, s1, run[1..]);
      QuietThrough(s.db, s1.db, After(w, cfg, s, run).db, d);
    }
  }

  /** The owner's report, and only the owner's, makes the device lost; from then on it is inert. */
  lemma ReportedLostIsInert(w: World, cfg: Tiers.Limits, s: State, sub: Id, d: Id, run: seq<Event>)
    requires Inv(w, cfg, s) && Legal(s, ReportLost(sub, d)) && LegalRun(w, cfg, Step(w, cfg, s, ReportLost(sub, d)).0, run)
    ensures var (s1, reply) := Step(w, cfg, s, ReportLost(sub, d));
            if d in s.db.devices && s.db.devices[d].account == sub then
              && reply == Done && s1 == s.(db := s.db.(devices := s.db.devices[d := Device(sub, DeviceLost)]))
              && DeviceQuiet(s.db, After(w, cfg, s1, run).db, d)
            else reply == Refused && s1 == s
  {
    var s1 := Step(w, cfg, s, ReportLost(sub, d)).0;
    if d in s.db.devices && s.db.devices[d].account == sub {
      assert IsLost(s1.db, d) && s1.db.reservations == s.db.reservations && s1.db.signatures == s.db.signatures;
      hide Step, DbOk, After, LegalRun;
      StepKeeps(w, cfg, s, ReportLost(sub, d));
      LostDeviceIsInert(w, cfg, s1, run, d);
    }
  }

  // ---- revoking ----

  /** Revoking one certificate revokes that one, leaves every other row of every table alone, and is refused
      only for an id that is not stored. */
  lemma RevokeIff(w: World, cfg: Tiers.Limits, s: State, id: Id)
    requires CA.LedgerOk(s.ledger) && Legal(s, RevokeCertificate(id))
    ensures var (s', reply) := Step(w, cfg, s, RevokeCertificate(id));
            && (reply == Done <==> id in s.db.certificates)
            && (id !in s.db.certificates ==> s' == s && reply == Refused)
            && (id in s.db.certificates ==>
                  && s' == s.(db := s.db.(certificates := s'.db.certificates))
                  && s'.db.certificates.Keys == s.db.certificates.Keys
                  && s'.db.certificates[id].status == CertRevoked
                  && forall k :: k in s.db.certificates ==>
                       s'.db.certificates[k] == if k == id then s.db.certificates[k].(status := CertRevoked) else s.db.certificates[k])
  {
    hide CA.LedgerOk;
  }

  /** Disabling marks lost exactly the account's devices that carried an active certificate, and revokes
      exactly its active certificates. */
  lemma DisableRowsIff(s: State, id: Id, run: CascadeRun)
    requires CA.LedgerOk(s.ledger) && run.now != 0
    ensures var (s', reply) := Disable(s, id, run);
            if id in s.db.accounts && s.db.accounts[id].role == RoleUser then
              && reply.CertificatesRevoked?
              && s'.db.accounts == s.db.accounts[id := s.db.accounts[id].(status := AccountDisabled)]
              && s'.db.devices.Keys == s.db.devices.Keys && s'.db.certificates.Keys == s.db.certificates.Keys
              && (forall d :: d in s.db.devices ==>
                    && s'.db.devices[d].account == s.db.devices[d].account
                    && (s'.db.devices[d].status == DeviceLost <==>
                          || s.db.devices[d].status == DeviceLost
                          || (s.db.devices[d].account == id && HadActive(s.db, id, d))))
              && (forall c :: c in s.db.certificates ==>
                    s'.db.certificates[c] == if s.db.certificates[c].account == id
                                             then s.db.certificates[c].(status := CertRevoked) else s.db.certificates[c])
            else reply == Refused && s' == s
  {
    hide LedgerAfter, Published, CA.LedgerOk;
    if ClientTarget(s.db, id) {
      var db1 := WithStatus(s.db, id, AccountDisabled);
      assert Disable(s, id, run).0.db == RevokedBy(db1, id, ActiveOf(db1, id));
      forall d | d in s.db.devices ensures Carries(db1, ActiveOf(db1, id), d) <==> HadActive(s.db, id, d) {
        if HadActive(s.db, id, d) {
          var c :| c in s.db.certificates && s.db.certificates[c].account == id && s.db.certificates[c].device == d && s.db.certificates[c].status == CertActive;
          assert c in ActiveOf(db1, id);
        }
      }
    }
  }

  predicate HadActive(db: Db, id: Id, d: Id) {
    exists c :: c in db.certificates && db.certificates[c].account == id && db.certificates[c].device == d && db.certificates[c].status == CertActive
  }

  /** The server's CRL changes only when the cascade revoked something and the CA delivered a new list: then
      it is the list of the CA's ledger, one number on. */
  lemma CrlAfterDisable(s: State, id: Id, run: CascadeRun)
    requires CA.LedgerOk(s.ledger) && run.now != 0 && id in s.db.accounts && s.db.accounts[id].role == RoleUser
    ensures var s' := Disable(s, id, run).0;
            var asked := run.ca.CaOnline? && !run.ca.publish.PublishFailed? && exists d :: HadActive(s.db, id, d);
            && s'.ledger.crlNumber == s.ledger.crlNumber + (if asked then 1 else 0)
            && (asked && run.ca.publish.PublishDelivered? ==>
                  && s'.crl.CrlFile? && s'.crl.crl.number == s'.ledger.crlNumber && s'.crl.crl.thisUpdate == run.now
                  && s'.crl.crl.nextUpdate == run.now + 7 * 24 * 3600
                  && s'.crl.crl.entries == CA.EntriesOf(s'.ledger))
            && (!(asked && run.ca.publish.PublishDelivered?) ==> s'.crl == s.crl)
  {
    hide CA.EntriesOf;
    var db1 := WithStatus(s.db, id, AccountDisabled);
    var reached := if run.ca.NoCa? then {} else run.ca.reached;
    LedgerAfterOk(s.ledger, db1, run.list, reached, run.now);
    NumberKept(s.ledger, db1, run.list, reached, run.now);
    hide CA.LedgerOk;
    assert ActiveOf(db1, id) != {} <==> exists d :: HadActive(s.db, id, d) by {
      if ActiveOf(db1, id) != {} {
        var c :| c in ActiveOf(db1, id);
        assert HadActive(s.db, id, s.db.certificates[c].device);
      }
      if d :| HadActive(s.db, id, d) {
        var c :| c in s.db.certificates && s.db.certificates[c].account == id && s.db.certificates[c].device == d && s.db.certificates[c].status == CertActive;
        assert c in ActiveOf(db1, id);
      }
    }
    EntriesIgnoreNumber(LedgerAfter(s.ledger, db1, run.list, reached, run.now));
  }

  /** The certificate is listed, active, reached at the CA, and carries the serial. */
  ghost predicate ReachedWith(db: Db, list: seq<Id>, reached: set<Id>, sn: string, k: Id) {
    k in list && k in reached && k in db.certificates && db.certificates[k].status == CertActive && db.certificates[k].serial == sn
  }

  lemma HasSerialSnoc(rs: seq<CA.Revocation>, r: CA.Revocation, sn: string)
    ensures CA.HasSerial(rs + [r], sn) <==> CA.HasSerial(rs, sn) || r.serial == sn
  {
    if CA.HasSerial(rs, sn) {
      var i :| 0 <= i < |rs| && rs[i].serial == sn;
      assert (rs + [r])[i].serial == sn;
    }
    if r.serial == sn { assert (rs + [r])[|rs|].serial == sn; }
  }

  lemma {:induction false} LedgerAfterIff(l: CA.Ledger, db: Db, list: seq<Id>, reached: set<Id>, now: Time, sn: string)
    requires forall k :: k in list && k in db.certificates ==> Hex.Parse(db.certificates[k].serial).Some? && db.certificates[k].serial != ""
    ensures var l' := LedgerAfter(l, db, list, reached, now);
            && (CA.HasSerial(l'.revocations, sn) <==> CA.HasSerial(l.revocations, sn) || exists k :: ReachedWith(db, list, reached, sn, k))
            && l.revocations <= l'.revocations
            && forall i :: |l.revocations| <= i < |l'.revocations| ==> l'.revocations[i].code == 5 && l'.revocations[i].at == now
  {
    hide Hex.Parse, CA.HasSerial;
    if list != [] {
      var front, id := list[..|list| - 1], list[|list| - 1];
      assert list == front + [id];
      LedgerAfterIff(l, db, front, reached, now, sn);
      var before, after := LedgerAfter(l, db, front, reached, now), LedgerAfter(l, db, list, reached, now);
      forall k ensures ReachedWith(db, list, reached, sn, k) <==> ReachedWith(db, front, reached, sn, k) || (k == id && ReachedWith(db, list, reached, sn, id)) {}
      if id in reached && id in db.certificates && db.certificates[id].status == CertActive {
        CA.ReasonFollowsRfc(CA.CESSATION, 5);
        hide CA.ReasonCode;
        HasSerialSnoc(before.revocations, CA.Revocation(db.certificates[id].serial, CA.CESSATION, 5, now), sn);
        assert ReachedWith(db, list, reached, db.certificates[id].serial, id);
      }
    }
  }

  /** The cascade records at the CA exactly the serials of the account's active certificates whose call got
      through, each as a cessation of operation at that time, and takes nothing off the ledger. */
  lemma CascadeLedgerIff(w: World, cfg: Tiers.Limits, s: State, id: Id, run: CascadeRun, sn: string)
    requires Inv(w, cfg, s) && LegalCascade(s.db, id, run) && ClientTarget(s.db, id)
    ensures var l' := Disable(s, id, run).0.ledger;
            && (CA.HasSerial(l'.revocations, sn) <==>
                  || CA.HasSerial(s.ledger.revocations, sn)
                  || (run.ca.CaOnline? && exists k :: && k in run.ca.reached && k in s.db.certificates && s.db.certificates[k].account == id
                                                      && s.db.certificates[k].status == CertActive && s.db.certificates[k].serial == sn))
            && s.ledger.revocations <= l'.revocations
            && forall i :: |s.ledger.revocations| <= i < |l'.revocations| ==> l'.revocations[i].code == 5 && l'.revocations[i].at == run.now
  {
    hide DbOk, Hex.Parse, Hex.Print, CA.LedgerOk, LedgerAfter, CA.HasSerial;
    var db1 := WithStatus(s.db, id, AccountDisabled);
    var reached := if run.ca.NoCa? then {} else run.ca.reached;
    forall k | k in run.list ensures Hex.Parse(s.db.certificates[k].serial).Some? && s.db.certificates[k].serial != "" {
      DbOkParts(w, cfg, s.db);
      assert CertificateBound(w, s.db, s.db.certificates[k]);
      PrintParses(w.parseCertificate(s.db.certificates[k].pem).value.serial);
    }
    LedgerAfterIff(s.ledger, db1, run.list, reached, run.now, sn);
    if k :| k in reached && k in s.db.certificates && s.db.certificates[k].account == id && s.db.certificates[k].status == CertActive && s.db.certificates[k].serial == sn {
      assert ReachedWith(db1, run.list, reached, sn, k);
    }
    LedgerAfterOk(s.ledger, db1, run.list, reached, run.now);
  }

  lemma PrintParses(n: int)
    ensures Hex.Parse(Hex.Print(n)).Some? && Hex.Print(n) != ""
  {
    Hex.RoundTrip(n);
    Hex.CanonicalIff(Hex.Print(n), n);
  }

  lemma EntriesIgnoreNumber(l: CA.Ledger)
    requires CA.LedgerOk(l)
    ensures CA.LedgerOk(l.(crlNumber := l.crlNumber + 1)) && CA.EntriesOf(l.(crlNumber := l.crlNumber + 1)) == CA.EntriesOf(l)
  {
  }

  lemma {:induction false} NumberKept(l: CA.Ledger, db: Db, list: seq<Id>, reached: set<Id>, now: Time)
    ensures LedgerAfter(l, db, list, reached, now).crlNumber == l.crlNumber
  {
    if list != [] { NumberKept(l, db, list[..|list| - 1], reached, now); }
  }

  // ---- submitting ----

  /** The document a submission sends: its body, within the upload limit, or the file of a live upload of
      the caller. */
  predicate Sends(cfg: Tiers.Limits, uploads: U.Manager, sub: Id, input: Input, body: Bytes) {
    match input
    case RawBody(b) => body == b && |b| <= cfg.upload
    case FromUpload(id) =>
      && id in uploads.live && id in uploads.sessions && uploads.sessions[id].account == sub
      && id in uploads.files && body == uploads.files[id]
  }

  /** The record of a submitted document. */
  ghost predicate RecordOf(w: World, cfg: Tiers.Limits, s: State, p: Id, body: Bytes, key: string, at: Time, index: map<string, Id>, sig: Signature)
    requires p in s.db.reservations
  {
    && sig.account == s.db.reservations[p].account && sig.device == s.db.reservations[p].device
    && sig.originalSha512 == s.db.reservations[p].originalSha512
    && sig.signedSha512 == w.sha512(body) && sig.size == |body| && sig.objectKey == key
    && (|body| > cfg.verify ==> sig.verification == VerificationStoredOnly && sig.certificate == sig.serial == sig.fingerprint == "")
    && (|body| <= cfg.verify ==>
          && sig.verification == VerificationAccepted
          && SoleSigner(w, body, at, p, sig.serial, sig.fingerprint)
          && sig.serial in index && sig.certificate == index[sig.serial] && sig.certificate in s.db.certificates
          && s.db.certificates[sig.certificate].status == CertActive)
  }

  /** The whole effect of a recorded submission. */
  ghost predicate RecordedAs(s: State, s': State, p: Id, key: string, body: Bytes, input: Input, sig: Signature)
    requires p in s.db.reservations
  {
    && s'.db == s.db.(objects := s.db.objects[key := body], signatures := s.db.signatures[p := sig],
                      reservations := s.db.reservations[p := s.db.reservations[p].(status := ReservationAccepted)])
    && s'.crl == s.crl && s'.ledger == s.ledger
    && s'.uploads.sessions == s.uploads.sessions
    && (input.RawBody? ==> s'.uploads == s.uploads)
    && (input.FromUpload? ==> s'.uploads.live == s.uploads.live - {input.id} && s'.uploads.files == s.uploads.files - {input.id})
  }

  lemma RecordWrites(s: State, p: Id, key: string, body: Bytes, sig: Signature, input: Input)
    requires p in s.db.reservations && p !in s.db.signatures
    ensures RecordedAs(s, Record(s, p, key, body, sig, input).0, p, key, body, input, sig)
    ensures Record(s, p, key, body, sig, input).1 == Recorded(sig)
  {
  }

  /** A record that is there already is never replaced: the late writer has overwritten the object, is
      refused, and nothing else changed. */
  lemma RecordConflict(s: State, p: Id, key: string, body: Bytes, sig: Signature, input: Input)
    requires p in s.db.reservations && p in s.db.signatures
    ensures Record(s, p, key, body, sig, input) == (s.(db := s.db.(objects := s.db.objects[key := body])), Refused)
  {
  }

  lemma InputIff(cfg: Tiers.Limits, uploads: U.Manager, sub: Id, input: Input, body: Bytes)
    requires U.SessionsOk(cfg.upload, uploads)
    ensures SignedInput(cfg, uploads, sub, input) == Some((body, |body|)) <==> Sends(cfg, uploads, sub, input, body)
    ensures SignedInput(cfg, uploads, sub, input).Some? ==>
              SignedInput(cfg, uploads, sub, input).value.1 == |SignedInput(cfg, uploads, sub, input).value.0|
  {
  }

  /** A submission to an open reservation is recorded exactly when it is the caller's own and sends a
      document that is too large to verify or that the acceptance guard asks for; the record then is the
      document's, and otherwise nothing changes. */
  lemma SubmitIff(w: World, cfg: Tiers.Limits, s: State, sub: Id, p: Id, input: Input, y: nat, m: nat, at: Time, index: map<string, Id>)
    requires Inv(w, cfg, s) && SerialIndex(s.db.certificates, index) && p !in s.db.signatures
    ensures var (s', reply) := Submitting(w, cfg, s, sub, p, input, y, m, at, index);
            && (reply.Recorded? <==>
                  && p in s.db.reservations && s.db.reservations[p].account == sub
                  && exists body :: && Sends(cfg, s.uploads, sub, input, body)
                                    && (|body| > cfg.verify || Acceptable(w, s, p, s.db.reservations[p], body, at, index)))
            && (reply.Recorded? ==>
                  exists body ::
                    && Sends(cfg, s.uploads, sub, input, body)
                    && RecordOf(w, cfg, s, p, body, K.Key(y, m, p), at, index, reply.signature)
                    && RecordedAs(s, s', p, K.Key(y, m, p), body, input, reply.signature))
            && (!reply.Recorded? ==> reply == Refused && s' == s)
  {
    hide StrictVerify, Acceptable, Record, K.Key, DbOk, RecordedAs, SignedInput, Sends, U.SessionsOk, SerialIndex;
    if p in s.db.reservations && s.db.reservations[p].account == sub {
      assert p != "" by { DbOkParts(w, cfg, s.db); }
      var got := SignedInput(cfg, s.uploads, sub, input);
      forall body ensures got == Some((body, |body|)) <==> Sends(cfg, s.uploads, sub, input, body) {
        InputIff(cfg, s.uploads, sub, input, body);
      }
      if got.Some? {
        var body := got.value.0;
        InputIff(cfg, s.uploads, sub, input, body);
        SubmittedDocument(w, cfg, s, sub, p, input, body, K.Key(y, m, p), at, index);
      }
    }
  }

  /** The two tiers, for a document in hand. */
  lemma SubmittedDocument(w: World, cfg: Tiers.Limits, s: State, sub: Id, p: Id, input: Input, body: Bytes, key: string, at: Time, index: map<string, Id>)
    requires p != "" && p in s.db.reservations && p !in s.db.signatures && SerialIndex(s.db.certificates, index)
    ensures var res := s.db.reservations[p];
            var v := StrictVerify(w, s, p, res, body, at, index);
            && (v.Some? <==> Acceptable(w, s, p, res, body, at, index))
            && (v.Some? && |body| <= cfg.verify ==>
                  var sig := Signature(res.account, res.device, v.value.certificate, v.value.serial, v.value.fingerprint, res.originalSha512,
                                       w.sha512(body), key, |body|, VerificationAccepted);
                  && RecordOf(w, cfg, s, p, body, key, at, index, sig)
                  && RecordedAs(s, Record(s, p, key, body, sig, input).0, p, key, body, input, sig)
                  && Record(s, p, key, body, sig, input).1 == Recorded(sig))
            && (|body| > cfg.verify ==>
                  var sig := Signature(res.account, res.device, "", "", "", res.originalSha512, w.sha512(body), key, |body|, VerificationStoredOnly);
                  && RecordOf(w, cfg, s, p, body, key, at, index, sig)
                  && RecordedAs(s, Record(s, p, key, body, sig, input).0, p, key, body, input, sig)
                  && Record(s, p, key, body, sig, input).1 == Recorded(sig))
  {
    hide StrictVerify, Record, RecordedAs, SerialIndex, SoleSigner;
    var res := s.db.reservations[p];
    StrictVerifyIff(w, s, p, res, body, at, index);
    var v := StrictVerify(w, s, p, res, body, at, index);
    if v.Some? {
      StrictVerifyEstablishes(w, s, p, res, body, at, index);
      RecordWrites(s, p, key, body,
        Signature(res.account, res.device, v.value.certificate, v.value.serial, v.value.fingerprint, res.originalSha512,
                  w.sha512(body), key, |body|, VerificationAccepted), input);
      RowFound(s.db, index, Hex.Print(SoleCertificate(w, body, at).serial));
    }
    RecordWrites(s, p, key, body,
      Signature(res.account, res.device, "", "", "", res.originalSha512, w.sha512(body), key, |body|, VerificationStoredOnly), input);
  }

  lemma RowFound(db: Db, index: map<string, Id>, serial: string)
    requires SerialIndex(db.certificates, index) && serial in index
    ensures index[serial] in db.certificates && db.certificates[index[serial]].serial == serial
  {
  }

  /** Stamping uses up an upload exactly when the reservation is the caller's and open, the device's newest
      certificate is active, the account exists, and the upload is the caller's and small enough. */
  lemma StampIff(cfg: Tiers.Limits, s: State, sub: Id, p: Id, upload: Id, newest: Option<Id>)
    requires p in s.db.reservations ==> NewestOfDevice(s.db.certificates, s.db.reservations[p].device, newest)
    requires U.SessionsOk(cfg.upload, s.uploads)
    ensures var (s', reply) := Stamping(cfg, s, sub, p, upload, newest);
            if && p in s.db.reservations && s.db.reservations[p].account == sub && s.db.reservations[p].status == ReservationReserved
               && (exists k :: && k in s.db.certificates && s.db.certificates[k].device == s.db.reservations[p].device
                               && newest == Some(k) && s.db.certificates[k].status == CertActive)
               && sub in s.db.accounts
               && (exists body :: Sends(cfg, s.uploads, sub, FromUpload(upload), body) && |body| <= cfg.stamp)
            then
              && reply == Done && s' == s.(uploads := s'.uploads)
              && s'.uploads == U.Manager(s.uploads.sessions, s.uploads.live - {upload}, s.uploads.files - {upload})
            else reply == Refused && s' == s
  {
    if upload in s.uploads.files { assert Sends(cfg, s.uploads, sub, FromUpload(upload), s.uploads.files[upload]) <==> U.Gettable(s.uploads, upload, sub); }
  }

  // ---- accounts ----

  /** The account is stored with this role and status. */
  predicate Stands(db: Db, id: Id, role: Role, status: AccountStatus) {
    id in db.accounts && db.accounts[id].role == role && db.accounts[id].status == status
  }

  ghost predicate EmailTaken(db: Db, email: string) {
    exists a :: a in db.accounts && db.accounts[a].email == email
  }

  /** What each account step does to the account it names, and when it is refused. */
  ghost predicate AccountOutcome(a: Db, b: Db, e: Event, reply: Reply) {
    match e
    case BootstrapSuperAdmin(id, email) =>
      if EmailTaken(a, email) || (exists x :: x in a.accounts && a.accounts[x].role == RoleSuperAdmin) then reply == Refused && b == a
      else reply == Done && Stands(b, id, RoleSuperAdmin, AccountActive) && b.accounts[id].email == email
    case Register(id, email) =>
      if EmailTaken(a, email) then reply == Refused && b == a
      else reply == Done && Stands(b, id, RoleUser, AccountPending) && b.accounts[id].email == email
    case CreateAdmin(id, email) =>
      if EmailTaken(a, email) then reply == Refused && b == a
      else reply == Done && Stands(b, id, RoleAdmin, AccountActive) && b.accounts[id].email == email
    case SetAdminStatus(id, status) =>
      if id in a.accounts && a.accounts[id].role == RoleAdmin && (status == AccountActive || status == AccountDisabled)
      then reply == Done && Stands(b, id, RoleAdmin, status) else reply == Refused && b == a
    case DeleteAdmin(id, erased) =>
      if id in a.accounts && a.accounts[id].role == RoleAdmin
      then reply == Done && (if erased then id !in b.accounts else Stands(b, id, RoleAdmin, AccountDisabled))
      else reply == Refused && b == a
    case ApproveAccount(id) =>
      if id in a.accounts && a.accounts[id].role == RoleUser then reply == Done && Stands(b, id, RoleUser, AccountActive) else reply == Refused && b == a
    case EnableAccount(id) =>
      if id in a.accounts && a.accounts[id].role == RoleUser then reply == Done && Stands(b, id, RoleUser, AccountActive) else reply == Refused && b == a
    case DisableAccount(id, _) =>
      if id in a.accounts && a.accounts[id].role == RoleUser then reply.CertificatesRevoked? && Stands(b, id, RoleUser, AccountDisabled)
      else reply == Refused && b == a
    case DeleteAccount(id, _, erased) =>
      if id in a.accounts && a.accounts[id].role == RoleUser
      then reply.CertificatesRevoked? && (if erased then id !in b.accounts else Stands(b, id, RoleUser, AccountDisabled))
      else reply == Refused && b == a
    case _ => true
  }

  /** No other account is touched, and the named one keeps its e-mail. */
  ghost predicate OthersAlone(a: Db, b: Db, id: Id) {
    && (forall x :: x != id ==> (x in b.accounts <==> x in a.accounts))
    && (forall x :: x in a.accounts && x in b.accounts ==> b.accounts[x].email == a.accounts[x].email)
    && (forall x :: x in a.accounts && x != id ==> b.accounts[x] == a.accounts[x])
  }

  lemma EmailTakenIff(db: Db, email: string)
    requires EmailsIndexed(db)
    ensures EmailTaken(db, email) <==> email in db.emails
  {
  }

  lemma CreationIff(s: State, e: Event)
    requires CA.LedgerOk(s.ledger) && Legal(s, e) && EmailsIndexed(s.db) && Known(s.db)
    requires e.BootstrapSuperAdmin? || e.Register? || e.CreateAdmin?
    ensures var (s', reply) := StepAccounts(s, e); AccountOutcome(s.db, s'.db, e, reply) && OthersAlone(s.db, s'.db, e.id)
  {
    hide CA.LedgerOk, EmailsIndexed, EmailTaken;
    EmailTakenIff(s.db, e.email);
  }

  lemma StatusIff(s: State, e: Event)
    requires CA.LedgerOk(s.ledger) && Legal(s, e) && (e.SetAdminStatus? || e.DeleteAdmin? || e.ApproveAccount? || e.EnableAccount?)
    ensures var (s', reply) := StepAccounts(s, e); AccountOutcome(s.db, s'.db, e, reply) && OthersAlone(s.db, s'.db, e.id)
  {
    hide CA.LedgerOk;
  }

  lemma RemovalIff(s: State, e: Event)
    requires CA.LedgerOk(s.ledger) && Legal(s, e) && (e.DisableAccount? || e.DeleteAccount?)
    ensures var (s', reply) := StepAccounts(s, e); AccountOutcome(s.db, s'.db, e, reply) && OthersAlone(s.db, s'.db, e.id)
  {
    hide Disable, CA.LedgerOk, AccountListing;
    DisableRowsIff(s, e.id, e.cascade);
  }

  lemma AccountStepIff(s: State, e: Event)
    requires CA.LedgerOk(s.ledger) && Legal(s, e) && OnAccounts(e) && EmailsIndexed(s.db) && Known(s.db)
    ensures var (s', reply) := StepAccounts(s, e);
            AccountOutcome(s.db, s'.db, e, reply) && OthersAlone(s.db, s'.db, e.id)
  {
    hide CA.LedgerOk, Legal, StepAccounts, AccountOutcome, OthersAlone, EmailsIndexed, Known;
    if e.DisableAccount? || e.DeleteAccount? {
      RemovalIff(s, e);
    } else if e.BootstrapSuperAdmin? || e.Register? || e.CreateAdmin? {
      CreationIff(s, e);
    } else {
      StatusIff(s, e);
    }
  }

  /** A step other than an account step leaves all accounts alone. */
  lemma OtherStepsLeaveAccounts(w: World, cfg: Tiers.Limits, s: State, e: Event)
    requires CA.LedgerOk(s.ledger) && Legal(s, e) && !OnAccounts(e)
    ensures Step(w, cfg, s, e).0.db.accounts == s.db.accounts
  {
    hide CA.LedgerOk, StepEnrolment, Submitting, U.ChunkHandled, U.Reaped, U.Created, NewestOfDevice, SerialIndex, StepAccounts;
    if OnEnrolment(e) {
      EnrolmentFrame(w, s, e);
    } else if e.Submit? {
      SubmitAccounts(w, cfg, s, e.sub, e.publicId, e.input, e.year, e.month, e.at, e.index);
    }
  }

  lemma SubmitAccounts(w: World, cfg: Tiers.Limits, s: State, sub: Id, p: Id, input: Input, y: nat, m: nat, at: Time, index: map<string, Id>)
    ensures Submitting(w, cfg, s, sub, p, input, y, m, at, index).0.db.accounts == s.db.accounts
  {
    hide StrictVerify, K.Key, SignedInput, Record;
    if p in s.db.reservations {
      forall key, body, sig ensures Record(s, p, key, body, sig, input).0.db.accounts == s.db.accounts {
        RecordAccounts(s, p, key, body, sig, input);
      }
    }
  }

  lemma RecordAccounts(s: State, p: Id, key: string, body: Bytes, sig: Signature, input: Input)
    requires p in s.db.reservations
    ensures Record(s, p, key, body, sig, input).0.db.accounts == s.db.accounts
  {
  }

  ghost predicate OneSuperAdmin(db: Db) {
    forall a, b :: a in db.accounts && b in db.accounts && db.accounts[a].role == RoleSuperAdmin && db.accounts[b].role == RoleSuperAdmin ==> a == b
  }

  /** Roles are for life, and a super admin is never removed or changed. */
  ghost predicate RolesKept(a: Db, b: Db) {
    && (forall x :: x in a.accounts && x in b.accounts ==> b.accounts[x].role == a.accounts[x].role)
    && (forall x :: x in a.accounts && a.accounts[x].role == RoleSuperAdmin ==> x in b.accounts && b.accounts[x] == a.accounts[x])
  }

  /** A super admin is never the target, a role never changes, and a new super admin is the first. */
  ghost predicate RoleOutcome(a: Db, b: Db, id: Id) {
    || b == a
    || (&& (id in a.accounts ==> a.accounts[id].role != RoleSuperAdmin)
        && (id in a.accounts && id in b.accounts ==> b.accounts[id].role == a.accounts[id].role)
        && (id !in a.accounts && id in b.accounts && b.accounts[id].role == RoleSuperAdmin ==>
              forall x :: x in a.accounts ==> a.accounts[x].role != RoleSuperAdmin))
  }

  lemma OutcomeOfRole(a: Db, b: Db, e: Event, reply: Reply)
    requires OnAccounts(e) && AccountOutcome(a, b, e, reply)
    requires e.BootstrapSuperAdmin? || e.Register? || e.CreateAdmin? ==> e.id !in a.accounts
    ensures RoleOutcome(a, b, e.id)
  {
    hide EmailTaken;
  }

  lemma OutcomeKeepsRoles(a: Db, b: Db, id: Id)
    requires RoleOutcome(a, b, id) && OthersAlone(a, b, id) && OneSuperAdmin(a)
    ensures OneSuperAdmin(b) && RolesKept(a, b)
  {
  }

  lemma StepKeepsRoles(w: World, cfg: Tiers.Limits, s: State, e: Event)
    requires CA.LedgerOk(s.ledger) && Legal(s, e) && EmailsIndexed(s.db) && Known(s.db) && OneSuperAdmin(s.db)
    ensures OneSuperAdmin(Step(w, cfg, s, e).0.db) && RolesKept(s.db, Step(w, cfg, s, e).0.db)
  {
    assert e.BootstrapSuperAdmin? || e.Register? || e.CreateAdmin? ==> e.id !in s.db.accounts;
    hide StepAccounts, StepEnrolment, StepSigning, CA.LedgerOk, EmailsIndexed, Legal, Known;
    if OnAccounts(e) {
      hide AccountOutcome, OthersAlone, OneSuperAdmin, RolesKept, RoleOutcome;
      AccountStepIff(s, e);
      OutcomeOfRole(s.db, StepAccounts(s, e).0.db, e, StepAccounts(s, e).1);
      OutcomeKeepsRoles(s.db, StepAccounts(s, e).0.db, e.id);
    } else {
      OtherStepsLeaveAccounts(w, cfg, s, e);
    }
  }

  /** Over every run from an empty server there is at most one super admin, and it is never disabled, removed or
      replaced. */
  lemma {:induction false} RolesAreForLife(w: World, cfg: Tiers.Limits, s: State, run: seq<Event>)
    requires Inv(w, cfg, s) && OneSuperAdmin(s.db) && LegalRun(w, cfg, s, run)
    ensures OneSuperAdmin(After(w, cfg, s, run).db)
    ensures forall x :: x in s.db.accounts && s.db.accounts[x].role == RoleSuperAdmin ==>
              x in After(w, cfg, s, run).db.accounts && After(w, cfg, s, run).db.accounts[x] == s.db.accounts[x]
    decreases |run|
  {
    hide DbOk, Step, Legal, CA.LedgerOk, U.SessionsOk, OneSuperAdmin;
    if run != [] {
      var s1 := Step(w, cfg, s, run[0]).0;
      DbOkParts(w, cfg, s.db);
      StepKeeps(w, cfg, s, run[0]);
      StepKeepsRoles(w, cfg, s, run[0]);
      RolesAreForLife(w, cfg, s1, run[1..]);
    }
  }

  // ---- devices, enrolment approval, CRL import ----

  /** A new device is the caller's and active; approval marks an existing enrolment approved; an imported
      file replaces the CRL exactly when it parses. */
  lemma SmallStepsIff(w: World, cfg: Tiers.Limits, s: State, e: Event)
    requires CA.LedgerOk(s.ledger) && Legal(s, e)
    ensures var (s', reply) := Step(w, cfg, s, e);
            match e
            case CreateDevice(sub, d) =>
              reply == Done && s' == s.(db := s.db.(devices := s.db.devices[d := Device(sub, DeviceActive)], used := s.db.used + {d}))
            case ApproveEnrollment(x) =>
              if x in s.db.enrollments then
                && reply == Done
                && s' == s.(db := s.db.(enrollments := s.db.enrollments[x := s.db.enrollments[x].(status := EnrollmentApproved)]))
              else reply == Refused && s' == s
            case ImportCrl(file) => if file.CrlFile? then reply == Done && s' == s.(crl := file) else reply == Refused && s' == s
            case _ => true
  {
    hide CA.LedgerOk, StepAccounts, StepSigning;
  }

  /** An admin's certificate is bound exactly when the enrolment exists and the certificate is bindable. */
  lemma IssueIff(w: World, cfg: Tiers.Limits, s: State, enrollment: Id, issue: Issue)
    requires Inv(w, cfg, s) && Legal(s, IssueCertificate(enrollment, issue))
    ensures var (s', reply) := Step(w, cfg, s, IssueCertificate(enrollment, issue));
            if enrollment in s.db.enrollments && Bindable(w, s.db.enrollments[enrollment].csr, issue.pem, issue.at) then
              && reply == Done && issue.certificate in s'.db.certificates
              && RowOf(w, s.db, enrollment, issue.pem, s'.db.certificates[issue.certificate])
              && s' == s.(db := s'.db)
            else reply == Refused && s' == s
  {
    hide DbOk, Bindable, Bind, RowOf, StepAccounts, StepSigning;
    DbOkParts(w, cfg, s.db);
    if enrollment in s.db.enrollments { BindIff(w, s.db, enrollment, issue); }
  }

  /** Opening an upload gives the caller an empty session; a tick of the reaper ends exactly the sessions idle
      for more than two hours; neither touches anything else. */
  lemma UploadStepsIff(w: World, cfg: Tiers.Limits, s: State, e: Event, id: Id)
    requires CA.LedgerOk(s.ledger) && Legal(s, e) && U.SessionsOk(cfg.upload, s.uploads)
    ensures var s' := Step(w, cfg, s, e).0;
            match e
            case CreateUpload(sub, made, _) =>
              && s' == s.(uploads := s'.uploads)
              && Sends(cfg, s'.uploads, sub, FromUpload(made), [])
              && (id != made ==> (id in s'.uploads.live <==> id in s.uploads.live) && (id in s'.uploads.files <==> id in s.uploads.files))
              && (id != made && id in s.uploads.files ==> s'.uploads.files[id] == s.uploads.files[id])
            case UploadChunk(sub, _, offset, d, now) =>
              s' == s.(uploads := U.ChunkHandled(s.uploads, e.id, sub, offset, cfg.upload, d, now).0)
            case ReapUploads(now) =>
              && s' == s.(uploads := s'.uploads)
              && (id in s'.uploads.live <==> id in s.uploads.live && now - s.uploads.sessions[id].updated <= 2 * 60 * 60)
              && (id in s'.uploads.live ==> id in s'.uploads.files && s'.uploads.files[id] == s.uploads.files[id])
            case _ => true
  {
    hide CA.LedgerOk, StepAccounts, StepEnrolment, U.ChunkHandled;
    if e.ReapUploads? { U.ReapedIff(s.uploads, e.now, id); }
  }
}
