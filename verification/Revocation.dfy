/** How revocation reaches the outside: the public record, and the CRL published by a cascade. */
module Revocation {
  import opened Basics
  import opened Pki
  import opened Store
  import opened Receiver
  import opened ReceiverInvariant
  import opened ReceiverTheorems
  import Hex
  import CA = CaLedger
  import V = Verification
  import U = Uploads
  import Tiers

  // ---- the public record ----

  datatype PublicStatus = ShownActive | ShownLost | ShownRevoked | ShownNotVerified

  /** The certificate status on the public page, given what the serial lookup answers. */
  function StatusShown(db: Db, sig: Signature, index: map<string, Id>): (r: PublicStatus) {
    if sig.verification == VerificationStoredOnly then ShownNotVerified
    else if sig.serial in index && index[sig.serial] in db.certificates && db.certificates[index[sig.serial]].status == CertRevoked then ShownRevoked
    else if sig.device in db.devices && db.devices[sig.device].status == DeviceLost then ShownLost
    else ShownActive
  }

  /** What the page shows for an accepted record, told from the rows it names: revoked exactly when the
      recorded certificate is, lost exactly when it is not and the record's device is, and active
      otherwise.  A store-only record shows not verified, and nothing else does. */
  lemma StatusShownIff(db: Db, sig: Signature, index: map<string, Id>)
    requires SerialIndex(db.certificates, index) && UniqueSerials(db.certificates)
    ensures StatusShown(db, sig, index) == ShownNotVerified <==> sig.verification == VerificationStoredOnly
    ensures sig.verification == VerificationAccepted && CertificateRecorded(db, sig) && sig.device in db.devices ==>
              var revoked := db.certificates[sig.certificate].status == CertRevoked;
              var lost := db.devices[sig.device].status == DeviceLost;
              && (StatusShown(db, sig, index) == ShownRevoked <==> revoked)
              && (StatusShown(db, sig, index) == ShownLost <==> !revoked && lost)
              && (StatusShown(db, sig, index) == ShownActive <==> !revoked && !lost)
  {
    if sig.verification == VerificationAccepted && CertificateRecorded(db, sig) {
      assert index[sig.serial] == sig.certificate;
    }
  }

  /** Once the owner reports a record's device lost, the record reads lost or revoked, in that state and
      in every later one. */
  lemma ReportedLostShows(w: World, cfg: Tiers.Limits, s: State, sub: Id, device: Id, run: seq<Event>, p: Id, index: map<string, Id>)
    requires Inv(w, cfg, s) && OwnsDevice(s.db, sub, device) && Legal(s, ReportLost(sub, device))
    requires LegalRun(w, cfg, Step(w, cfg, s, ReportLost(sub, device)).0, run)
    requires p in s.db.signatures && s.db.signatures[p].device == device && s.db.signatures[p].verification == VerificationAccepted
    requires var db := After(w, cfg, Step(w, cfg, s, ReportLost(sub, device)).0, run).db;
             UniqueSerials(db.certificates) && SerialIndex(db.certificates, index)
    ensures var db := After(w, cfg, Step(w, cfg, s, ReportLost(sub, device)).0, run).db;
            StatusShown(db, s.db.signatures[p], index) in {ShownLost, ShownRevoked}
  {
    hide Step, DbOk, StatusShown, UniqueSerials, SerialIndex, LegalRun, After, Legal, CA.LedgerOk, U.SessionsOk, Grows;
    var s1 := Step(w, cfg, s, ReportLost(sub, device)).0;
    ReportStep(w, cfg, s, sub, device);
    StepKeeps(w, cfg, s, ReportLost(sub, device));
    RunKeeps(w, cfg, s1, run);
    var db := After(w, cfg, s1, run).db;
    DbOkParts(w, cfg, db);
    LostAndKept(s1.db, db, device, p);
    StatusShownIff(db, s.db.signatures[p], index);
  }

  lemma ReportStep(w: World, cfg: Tiers.Limits, s: State, sub: Id, device: Id)
    requires CA.LedgerOk(s.ledger) && Legal(s, ReportLost(sub, device)) && OwnsDevice(s.db, sub, device)
    ensures var db := Step(w, cfg, s, ReportLost(sub, device)).0.db;
            device in db.devices && db.devices[device].status == DeviceLost && db.signatures == s.db.signatures
  {
    hide CA.LedgerOk, StepAccounts, StepSigning;
  }

  lemma LostAndKept(a: Db, b: Db, device: Id, p: Id)
    requires Grows(a, b) && device in a.devices && a.devices[device].status == DeviceLost && p in a.signatures
    ensures device in b.devices && b.devices[device].status == DeviceLost && p in b.signatures && b.signatures[p] == a.signatures[p]
  {
  }

  function Rank(s: PublicStatus): (n: nat) {
    match s
    case ShownActive => 0
    case ShownLost => 1
    case ShownRevoked => 2
    case ShownNotVerified => 3
  }

  lemma WorsensBetween(a: Db, b: Db, sig: Signature, index: map<string, Id>, index': map<string, Id>)
    requires DevicesGrow(a, b) && CertificatesGrow(a, b) && UniqueSerials(b.certificates)
    requires SerialIndex(a.certificates, index) && SerialIndex(b.certificates, index')
    ensures Rank(StatusShown(a, sig, index)) <= Rank(StatusShown(b, sig, index'))
  {
    if sig.serial in index {
      var c := index[sig.serial];
      assert c in b.certificates && b.certificates[c].serial == sig.serial;
      assert index'[sig.serial] == c;
    }
  }

  /** With unique serials, the status shown for a record only moves along active, device reported
      lost, revoked; a store-only record always shows not verified. */
  lemma StatusOnlyWorsens(w: World, cfg: Tiers.Limits, s: State, run: seq<Event>, p: Id, index: map<string, Id>, index': map<string, Id>)
    requires Inv(w, cfg, s) && LegalRun(w, cfg, s, run) && p in s.db.signatures
    requires UniqueSerials(After(w, cfg, s, run).db.certificates)
    requires SerialIndex(s.db.certificates, index) && SerialIndex(After(w, cfg, s, run).db.certificates, index')
    ensures var sig, db' := s.db.signatures[p], After(w, cfg, s, run).db;
            && p in db'.signatures && db'.signatures[p] == sig
            && Rank(StatusShown(s.db, sig, index)) <= Rank(StatusShown(db', sig, index'))
            && (sig.verification == VerificationStoredOnly <==> StatusShown(db', sig, index') == ShownNotVerified)
  {
    hide DbOk, After, LegalRun, SerialIndex, UniqueSerials;
    RunKeeps(w, cfg, s, run);
    WorsensBetween(s.db, After(w, cfg, s, run).db, s.db.signatures[p], index, index');
  }

  /** A lookup table that answers with a chosen certificate for its own serial. */
  ghost function IndexFor(certificates: map<Id, Certificate>, id: Id): (index: map<string, Id>)
    requires id in certificates
    ensures SerialIndex(certificates, index) && index[certificates[id].serial] == id
  {
    var serials := set k | k in certificates :: certificates[k].serial;
    map sn | sn in serials ::
      if sn == certificates[id].serial then id
      else var k :| k in certificates && certificates[k].serial == sn; k
  }

  /** Without unique serials the answer may depend on map order: an accepted record is sure to read
      revoked exactly when every certificate with its serial is revoked. */
  lemma RevokedForEveryLookupIff(db: Db, sig: Signature)
    requires sig.verification == VerificationAccepted && CertificateRecorded(db, sig)
    ensures (forall index :: SerialIndex(db.certificates, index) ==> StatusShown(db, sig, index) == ShownRevoked)
            <==> (forall c :: c in db.certificates && db.certificates[c].serial == sig.serial ==> db.certificates[c].status == CertRevoked)
  {
    if forall index :: SerialIndex(db.certificates, index) ==> StatusShown(db, sig, index) == ShownRevoked {
      forall c | c in db.certificates && db.certificates[c].serial == sig.serial ensures db.certificates[c].status == CertRevoked {
        var index := IndexFor(db.certificates, c);
        assert StatusShown(db, sig, index) == ShownRevoked;
      }
    }
  }

  /** Once an account is disabled or deleted, all its accepted signatures read revoked. */
  lemma DisabledSignaturesReadRevoked(w: World, cfg: Tiers.Limits, s: State, e: Event, p: Id, index: map<string, Id>)
    requires Inv(w, cfg, s) && Legal(s, e)
    requires (e.DisableAccount? || e.DeleteAccount?) && ClientTarget(s.db, e.id)
    requires p in s.db.signatures && s.db.signatures[p].account == e.id && s.db.signatures[p].verification == VerificationAccepted
    requires UniqueSerials(s.db.certificates) && SerialIndex(Step(w, cfg, s, e).0.db.certificates, index)
    ensures StatusShown(Step(w, cfg, s, e).0.db, s.db.signatures[p], index) == ShownRevoked
  {
    hide Step, DbOk, Grows, SerialIndex, UniqueSerials, Dormant;
    DisableIsExact(w, cfg, s, e);
    StepKeeps(w, cfg, s, e);
    DbOkParts(w, cfg, s.db);
    ReadsRevoked(s.db, Step(w, cfg, s, e).0.db, s.db.signatures[p], index);
  }

  lemma ReadsRevoked(a: Db, b: Db, sig: Signature, index: map<string, Id>)
    requires Grows(a, b) && b.certificates.Keys == a.certificates.Keys && Dormant(b, sig.account)
    requires UniqueSerials(a.certificates) && SerialIndex(b.certificates, index)
    requires sig.verification == VerificationAccepted && CertificateRecorded(a, sig)
    ensures StatusShown(b, sig, index) == ShownRevoked
  {
    var c := sig.certificate;
    assert b.certificates[c].serial == sig.serial && b.certificates[c].status == CertRevoked;
    assert index[sig.serial] in a.certificates && a.certificates[index[sig.serial]].serial == sig.serial;
  }

  // ---- from the cascade to the verifier ----

  /** The CA was online, took every revocation, and its new CRL reached the server. */
  predicate CaSucceeds(db: Db, id: Id, run: CascadeRun) {
    run.ca.CaOnline? && ActiveOf(db, id) <= run.ca.reached && run.ca.publish.PublishDelivered?
  }

  lemma {:induction false} LedgerHoldsReached(l: CA.Ledger, db: Db, list: seq<Id>, reached: set<Id>, now: Time, id: Id)
    requires CA.LedgerOk(l) && now != 0
    requires id in list && id in reached && id in db.certificates && db.certificates[id].status == CertActive
    requires forall k :: k in list && k in db.certificates ==> Hex.Parse(db.certificates[k].serial).Some? && db.certificates[k].serial != ""
    ensures CA.HasSerial(LedgerAfter(l, db, list, reached, now).revocations, db.certificates[id].serial)
  {
    hide Hex.Parse;
    var front, last := list[..|list| - 1], list[|list| - 1];
    var before := LedgerAfter(l, db, front, reached, now);
    var after := LedgerAfter(l, db, list, reached, now);
    assert before.revocations <= after.revocations;
    if last == id {
      if !CA.HasSerial(before.revocations, db.certificates[id].serial) {
        assert after.revocations[|before.revocations|].serial == db.certificates[id].serial;
      }
    }
    if last != id || CA.HasSerial(before.revocations, db.certificates[id].serial) {
      if last != id {
        assert id in front;
        LedgerHoldsReached(l, db, front, reached, now, id);
      }
      var i :| 0 <= i < |before.revocations| && before.revocations[i].serial == db.certificates[id].serial;
      assert after.revocations[i].serial == db.certificates[id].serial;
    }
  }

  /** The CRL in force after the cascade lists every certificate the cascade revoked. */
  lemma CascadeListsRevoked(w: World, cfg: Tiers.Limits, s: State, id: Id, run: CascadeRun, c: Id, serial: int)
    requires Inv(w, cfg, s) && LegalCascade(s.db, id, run) && ClientTarget(s.db, id) && CaSucceeds(s.db, id, run)
    requires c in ActiveOf(s.db, id) && s.db.certificates[c].serial == Hex.Print(serial)
    ensures var s' := Disable(s, id, run).0;
            s'.crl.CrlFile? && Listed(s'.crl.crl.entries, serial)
  {
    hide DbOk, Hex.Parse, Hex.Print, CA.LedgerOk, LedgerAfter;
    var db1 := WithStatus(s.db, id, AccountDisabled);
    assert ActiveOf(db1, id) == ActiveOf(s.db, id) && db1.certificates == s.db.certificates;
    forall k | k in run.list ensures Hex.Parse(s.db.certificates[k].serial).Some? && s.db.certificates[k].serial != "" {
      DbOkParts(w, cfg, s.db);
      assert CertificateBound(w, s.db, s.db.certificates[k]);
      PrintedParses(w.parseCertificate(s.db.certificates[k].pem).value.serial);
    }
    LedgerHoldsReached(s.ledger, db1, run.list, run.ca.reached, run.now, c);
    LedgerAfterOk(s.ledger, db1, run.list, run.ca.reached, run.now);
    var l := LedgerAfter(s.ledger, db1, run.list, run.ca.reached, run.now);
    HeldIsListed(l, serial, run.now, CA.SEVEN_DAYS);
  }

  lemma PrintedParses(n: int)
    ensures Hex.Parse(Hex.Print(n)) == Some(n) && Hex.Print(n) != ""
  {
    Hex.RoundTrip(n);
    Hex.CanonicalIff(Hex.Print(n), n);
  }

  lemma HeldIsListed(l: CA.Ledger, serial: int, now: Time, validity: int)
    requires CA.LedgerOk(l) && CA.HasSerial(l.revocations, Hex.Print(serial))
    ensures Listed(CA.CrlOf(l, now, validity).entries, serial)
  {
    PrintedParses(serial);
    var i :| 0 <= i < |l.revocations| && l.revocations[i].serial == Hex.Print(serial);
    assert CA.EntriesOf(l)[i].serial == serial;
  }

  /** The signature was made with certificate `c`, and the CRL after the cascade passes its check. */
  predicate MadeWithRevoked(w: World, s: State, id: Id, run: CascadeRun, c: Id, sig: RawSignature)
    requires CA.LedgerOk(s.ledger) && run.now != 0
  {
    && c in s.db.certificates
    && sig.certificate.Some? && Hex.Print(sig.certificate.value.serial) == s.db.certificates[c].serial
    && V.CrlPassesCheck(w, Disable(s, id, run).0.crl, sig.certificate.value)
  }

  /** Once the cascade returns with the CA's help, every document with a signature made by a
      certificate it revoked verifies as revoked and invalid, provided the CRL passes its check. */
  lemma CascadeInvalidatesDocuments(w: World, cfg: Tiers.Limits, s: State, id: Id, run: CascadeRun, c: Id, pdf: Bytes, at: Time, i: nat)
    requires Inv(w, cfg, s) && LegalCascade(s.db, id, run) && ClientTarget(s.db, id) && CaSucceeds(s.db, id, run)
    requires c in ActiveOf(s.db, id)
    requires 0 < |pdf| <= V.MAX_PDF_BYTES && w.parsePdf(pdf, at).Signatures? && i < |w.parsePdf(pdf, at).sigs|
    ensures MadeWithRevoked(w, s, id, run, c, w.parsePdf(pdf, at).sigs[i]) ==>
              var verdict := V.Verdict(w, pdf, V.Options(Disable(s, id, run).0.crl, true, at));
              && verdict.Some? && !verdict.value.valid
              && i < |verdict.value.signatures| && verdict.value.signatures[i].revoked && !verdict.value.signatures[i].valid
  {
    hide DbOk, Disable, Hex.Print, CA.LedgerOk;
    var sigs := w.parsePdf(pdf, at).sigs;
    if MadeWithRevoked(w, s, id, run, c, sigs[i]) {
      var o := V.Options(Disable(s, id, run).0.crl, true, at);
      CascadeListsRevoked(w, cfg, s, id, run, c, sigs[i].certificate.value.serial);
      V.SignatureValidIff(w, o, sigs[i]);
      V.ValidIff(w, pdf, o);
      assert V.AllVerdicts(w, o, sigs)[i] == V.SignatureVerdict(w, o, sigs[i]);
    }
  }

  /** Over any run of the CA, failures included: a serial listed in one published CRL is reported
      revoked against that CRL and every later one, whenever the CRL's signature checks out. */
  lemma OnceListedAlwaysRevoked(w: World, cs: seq<CA.Command>, i: nat, j: nat, issuer: Option<X509>, target: X509, now: Time)
    requires forall k :: 0 <= k < |cs| ==> CA.LegalCommand(cs[k])
    requires i <= j < |CA.Run(CA.INITIAL, cs).published|
    requires Listed(CA.Run(CA.INITIAL, cs).published[i].crl.entries, target.serial)
    requires var crl := CA.Run(CA.INITIAL, cs).published[j].crl; issuer.None? || w.crlSignedBy(crl, issuer.value)
    ensures var crl := CA.Run(CA.INITIAL, cs).published[j].crl;
            var verdict := V.CrlVerdict(w, CrlFile(crl), issuer, target, now);
            verdict.Some? && verdict.value.revoked
  {
    CA.RunKeepsInv(CA.INITIAL, cs);
    var ps := CA.Run(CA.INITIAL, cs).published;
    var k :| 0 <= k < |ps[i].crl.entries| && ps[i].crl.entries[k].serial == target.serial;
    assert ps[i].crl.entries <= ps[j].crl.entries;
    assert ps[j].crl.entries[k].serial == target.serial;
  }
}
