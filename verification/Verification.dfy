/** Checking a signed PDF against the configured CA and a CRL. */
module Verification {
  import opened Basics
  import opened Pki
  import Hex

  const MAX_PDF_BYTES := 64 * 1024 * 1024
  const PUBLIC_ID_PREFIX := "pqc-public-id:"

  datatype CrlStatus = CrlStatus(revoked: bool, revokedAt: Time, stale: bool, signatureOk: bool)

  datatype CrlNote = NoNote | CheckFailed | StaleCrl

  datatype SignatureResult = SignatureResult(
    valid: bool, mldsa: bool, serial: string, fingerprint: string,
    trustedChain: bool, revoked: bool, contact: string, note: CrlNote)
  {
    /** The reservation bound into the signature, or "". */
    function PublicId(): (id: string) {
      if |contact| > |PUBLIC_ID_PREFIX| && contact[..|PUBLIC_ID_PREFIX|] == PUBLIC_ID_PREFIX
      then contact[|PUBLIC_ID_PREFIX|..] else ""
    }
  }

  datatype DocumentResult = DocumentResult(valid: bool, sha512: string, signatures: seq<SignatureResult>, errors: nat)

  datatype Options = Options(crl: CrlFile, requireMldsa: bool, at: Time)

  // ---- the CRL check ----

  /** The first supplied intermediate whose subject is the signer's issuer. */
  function CrlIssuer(intermediates: seq<X509>, signer: X509): (r: Option<X509>) {
    if intermediates == [] then None
    else if intermediates[0].subject == signer.issuer then Some(intermediates[0])
    else CrlIssuer(intermediates[1..], signer)
  }

  /** Entry `k` is the signer's issuer: it has its name, and no earlier entry does. */
  predicate IsIssuer(intermediates: seq<X509>, signer: X509, k: nat) {
    && k < |intermediates| && intermediates[k].subject == signer.issuer
    && forall j :: 0 <= j < k ==> intermediates[j].subject != signer.issuer
  }

  /** The list parses, and the signer's issuer, if it is among the supplied certificates, signed it. */
  predicate CrlPassesCheck(w: World, file: CrlFile, signer: X509) {
    && file.CrlFile?
    && forall k: nat :: k < |w.intermediates| && IsIssuer(w.intermediates, signer, k) ==> w.crlSignedBy(file.crl, w.intermediates[k])
  }

  /** The issuer found is the first supplied certificate with the issuer's name, none exactly when there
      is no such certificate. */
  lemma {:induction false} IssuerFoundIff(intermediates: seq<X509>, signer: X509, c: X509)
    ensures CrlIssuer(intermediates, signer) == Some(c) <==> exists k: nat :: IsIssuer(intermediates, signer, k) && intermediates[k] == c
    ensures CrlIssuer(intermediates, signer) == None <==> forall k: nat :: k < |intermediates| ==> intermediates[k].subject != signer.issuer
  {
    if intermediates != [] {
      var rest := intermediates[1..];
      if intermediates[0].subject == signer.issuer {
        assert IsIssuer(intermediates, signer, 0);
      } else {
        IssuerFoundIff(rest, signer, c);
        assert forall k: nat :: k < |rest| ==> rest[k] == intermediates[k + 1];
        forall k: nat | k < |rest| ensures IsIssuer(rest, signer, k) <==> IsIssuer(intermediates, signer, k + 1) {
          IssuerShift(intermediates, signer, k);
        }
        if CrlIssuer(rest, signer) == Some(c) {
          var k: nat :| IsIssuer(rest, signer, k) && rest[k] == c;
          assert IsIssuer(intermediates, signer, k + 1) && intermediates[k + 1] == c;
        }
        if exists k: nat :: IsIssuer(intermediates, signer, k) && intermediates[k] == c {
          var k: nat :| IsIssuer(intermediates, signer, k) && intermediates[k] == c;
          assert IsIssuer(rest, signer, k - 1) && rest[k - 1] == c;
        }
      }
    }
  }

  lemma IssuerShift(intermediates: seq<X509>, signer: X509, k: nat)
    requires intermediates != [] && intermediates[0].subject != signer.issuer
    ensures IsIssuer(intermediates[1..], signer, k) <==> IsIssuer(intermediates, signer, k + 1)
  {
    var rest := intermediates[1..];
    if IsIssuer(intermediates, signer, k + 1) {
      forall j | 0 <= j < k ensures rest[j].subject != signer.issuer { assert rest[j] == intermediates[j + 1]; }
    }
    if IsIssuer(rest, signer, k) {
      forall j | 0 <= j < k + 1 ensures intermediates[j].subject != signer.issuer { if j > 0 { assert intermediates[j] == rest[j - 1]; } }
    }
  }

  /** A list passes its check exactly when the search for the issuer finds none, or one that signed it. */
  lemma PassesCheckIff(w: World, file: CrlFile, signer: X509)
    ensures CrlPassesCheck(w, file, signer) <==>
            file.CrlFile? && (CrlIssuer(w.intermediates, signer).None? || w.crlSignedBy(file.crl, CrlIssuer(w.intermediates, signer).value))
  {
    var chain := w.intermediates;
    match CrlIssuer(chain, signer)
    case None => IssuerFoundIff(chain, signer, signer);
    case Some(c) =>
      IssuerFoundIff(chain, signer, c);
      var k: nat :| IsIssuer(chain, signer, k) && chain[k] == c;
      assert forall j: nat :: IsIssuer(chain, signer, j) ==> j == k;
  }

  /** The position of the first entry for a serial. */
  function FirstListed(entries: seq<CrlEntry>, serial: int): (r: Option<nat>)
    ensures r.None? <==> !Listed(entries, serial)
    ensures r.Some? ==> r.value < |entries| && entries[r.value].serial == serial
                        && !Listed(entries[..r.value], serial)
  {
    if entries == [] then None
    else if entries[0].serial == serial then Some(0)
    else
      var rest := FirstListed(entries[1..], serial);
      assert forall i :: 1 <= i < |entries| ==> entries[i] == entries[1..][i - 1];
      match rest
      case None => None
      case Some(k) =>
        assert entries[..k + 1] == [entries[0]] + entries[1..][..k];
        Some(k + 1)
  }

  /** What the CRL check reports, or an error when the list does not parse or is not the issuer's. */
  function CrlVerdict(w: World, file: CrlFile, issuer: Option<X509>, target: X509, now: Time): (r: Option<CrlStatus>) {
    if !file.CrlFile? then None
    else if issuer.Some? && !w.crlSignedBy(file.crl, issuer.value) then None
    else
      var hit := FirstListed(file.crl.entries, target.serial);
      Some(CrlStatus(
        hit.Some?,
        if hit.Some? then file.crl.entries[hit.value].at else 0,
        file.crl.nextUpdate != 0 && now > file.crl.nextUpdate,
        issuer.Some?))
  }

  /** `certutil.ValidateCRL` */
  method ValidateCRL(w: World, file: CrlFile, issuer: Option<X509>, target: X509, now: Time) returns (r: Option<CrlStatus>)
    ensures r == CrlVerdict(w, file, issuer, target, now)
  {
    if !file.CrlFile? { return None; }
    var crl := file.crl;
    var st := CrlStatus(false, 0, crl.nextUpdate != 0 && now > crl.nextUpdate, false);
    if issuer.Some? {
      if !w.crlSignedBy(crl, issuer.value) { return None; }
      st := st.(signatureOk := true);
    }
    for k := 0 to |crl.entries|
      invariant !Listed(crl.entries[..k], target.serial)
      invariant st == CrlStatus(false, 0, crl.nextUpdate != 0 && now > crl.nextUpdate, issuer.Some?)
    {
      if crl.entries[k].serial == target.serial {
        st := st.(revoked := true, revokedAt := crl.entries[k].at);
        FirstIsUnique(crl.entries, target.serial, k);
        return Some(st);
      }
    }
    assert crl.entries[..|crl.entries|] == crl.entries;
    return Some(st);
  }

  lemma {:induction false} FirstIsUnique(entries: seq<CrlEntry>, serial: int, k: nat)
    requires k < |entries| && entries[k].serial == serial && !Listed(entries[..k], serial)
    ensures FirstListed(entries, serial) == Some(k)
  {
    if k > 0 {
      assert entries[..k][0].serial != serial;
      var rest := entries[1..][..k - 1];
      forall i | 0 <= i < |rest| ensures rest[i].serial != serial {
        assert entries[..k][i + 1] == rest[i];
      }
      FirstIsUnique(entries[1..], serial, k - 1);
    }
  }

  predicate IsFirst(entries: seq<CrlEntry>, serial: int, k: nat) {
    k < |entries| && entries[k].serial == serial && !Listed(entries[..k], serial)
  }

  /** What the check reports: an error exactly when the list does not parse or its issuer did not sign it;
      revoked exactly when the serial is listed, since the time of its first entry; stale exactly when the
      list names a next update that has passed. */
  lemma CrlVerdictIff(w: World, file: CrlFile, issuer: Option<X509>, target: X509, now: Time)
    ensures var r := CrlVerdict(w, file, issuer, target, now);
            && (r.Some? <==> file.CrlFile? && (issuer.Some? ==> w.crlSignedBy(file.crl, issuer.value)))
            && (r.Some? ==>
                  && (r.value.signatureOk <==> issuer.Some?)
                  && (r.value.stale <==> file.crl.nextUpdate != 0 && file.crl.nextUpdate < now)
                  && (r.value.revoked <==> Listed(file.crl.entries, target.serial))
                  && (forall k | 0 <= k < |file.crl.entries| && IsFirst(file.crl.entries, target.serial, k) ::
                        r.value.revokedAt == file.crl.entries[k].at)
                  && (!r.value.revoked ==> r.value.revokedAt == 0))
  {
    if file.CrlFile? {
      forall k | 0 <= k < |file.crl.entries| && IsFirst(file.crl.entries, target.serial, k)
        ensures FirstListed(file.crl.entries, target.serial) == Some(k)
      {
        FirstIsUnique(file.crl.entries, target.serial, k);
      }
    }
  }

  // ---- one signature ----

  function SignatureVerdict(w: World, o: Options, s: RawSignature): (r: SignatureResult) {
    match s.certificate
    case None => SignatureResult(false, false, "", "", s.trustedChain, s.revoked, s.contact, NoNote)
    case Some(c) =>
      var base := SignatureResult(
        s.valid && (o.requireMldsa ==> c.mldsa), c.mldsa, Hex.Print(c.serial), c.fingerprint,
        s.trustedChain, s.revoked, s.contact, NoNote);
      if o.crl.NoCrl? then base
      else
        match CrlVerdict(w, o.crl, CrlIssuer(w.intermediates, c), c, o.at)
        case None => base.(note := CheckFailed)
        case Some(st) =>
          if st.revoked then base.(revoked := true, valid := false)
          else if st.stale then base.(note := StaleCrl)
          else base
  }

  function AllVerdicts(w: World, o: Options, sigs: seq<RawSignature>): (rs: seq<SignatureResult>) {
    seq(|sigs|, i requires 0 <= i < |sigs| => SignatureVerdict(w, o, sigs[i]))
  }

  predicate AllValid(rs: seq<SignatureResult>) {
    forall i :: 0 <= i < |rs| ==> rs[i].valid
  }

  lemma AllValidSnoc(rs: seq<SignatureResult>, r: SignatureResult)
    ensures AllValid(rs + [r]) <==> AllValid(rs) && r.valid
  {
    if AllValid(rs + [r]) {
      assert (rs + [r])[|rs|] == r;
      assert forall i :: 0 <= i < |rs| ==> (rs + [r])[i] == rs[i];
    }
  }

  /** `VerifyPDF`: None is an error return. */
  function Verdict(w: World, pdf: Bytes, o: Options): (r: Option<DocumentResult>) {
    if |pdf| > MAX_PDF_BYTES || |pdf| == 0 then None
    else
      match w.parsePdf(pdf, o.at)
      case CannotOpen => None
      case BuilderError => Some(DocumentResult(false, w.sha512(pdf), [], 1))
      case Signatures(sigs) =>
        if sigs == [] then Some(DocumentResult(false, w.sha512(pdf), [], 1))
        else
          var rs := AllVerdicts(w, o, sigs);
          Some(DocumentResult(AllValid(rs), w.sha512(pdf), rs, 0))
  }

  /** `verifyPDF`: the result loop over the signatures of a document. */
  method VerifyPDF(w: World, pdf: Bytes, o: Options) returns (r: Option<DocumentResult>)
    ensures r == Verdict(w, pdf, o)
  {
    if |pdf| > MAX_PDF_BYTES { return None; }
    if |pdf| == 0 { return None; }
    var res := DocumentResult(false, w.sha512(pdf), [], 0);
    var parsed := w.parsePdf(pdf, o.at);
    if parsed.CannotOpen? { return None; }
    if parsed.BuilderError? || parsed.sigs == [] { return Some(res.(errors := 1)); }
    var sigs := parsed.sigs;
    var allValid := true;
    for k := 0 to |sigs|
      invariant res.signatures == AllVerdicts(w, o, sigs)[..k]
      invariant res == DocumentResult(false, w.sha512(pdf), res.signatures, 0)
      invariant allValid == AllValid(res.signatures)
    {
      var s := sigs[k];
      var sr := SignatureResult(s.valid, false, "", "", s.trustedChain, s.revoked, s.contact, NoNote);
      if s.certificate.Some? {
        var c := s.certificate.value;
        sr := sr.(serial := Hex.Print(c.serial), fingerprint := c.fingerprint, mldsa := c.mldsa);
        if o.requireMldsa && !c.mldsa { sr := sr.(valid := false); }
        if !o.crl.NoCrl? {
          var st := ValidateCRL(w, o.crl, CrlIssuer(w.intermediates, c), c, o.at);
          if st.None? { sr := sr.(note := CheckFailed); }
          else if st.value.revoked { sr := sr.(revoked := true, valid := false); }
          else if st.value.stale { sr := sr.(note := StaleCrl); }
        }
      } else {
        sr := sr.(valid := false);
      }
      assert sr == SignatureVerdict(w, o, s);
      if !sr.valid { allValid := false; }
      AllValidSnoc(res.signatures, sr);
      res := res.(signatures := res.signatures + [sr]);
    }
    assert AllVerdicts(w, o, sigs)[..|sigs|] == AllVerdicts(w, o, sigs);
    return Some(res.(valid := allValid && res.errors == 0));
  }

  // ---- what a verdict means ----

  /** A signature the CRL strikes out: listed in a list that passed its check. */
  predicate StruckOut(w: World, crl: CrlFile, c: X509) {
    CrlPassesCheck(w, crl, c) && Listed(crl.crl.entries, c.serial)
  }

  /** A signature counts: certificate present, valid by itself, ML-DSA if required, not struck out. */
  predicate Sound(w: World, o: Options, s: RawSignature) {
    && s.certificate.Some?
    && s.valid
    && (o.requireMldsa ==> s.certificate.value.mldsa)
    && !StruckOut(w, o.crl, s.certificate.value)
  }

  lemma SignatureValidIff(w: World, o: Options, s: RawSignature)
    ensures SignatureVerdict(w, o, s).valid <==> Sound(w, o, s)
    ensures s.certificate.Some? && StruckOut(w, o.crl, s.certificate.value) ==> SignatureVerdict(w, o, s).revoked
  {
    hide CrlPassesCheck, CrlIssuer;
    if s.certificate.Some? { PassesCheckIff(w, o.crl, s.certificate.value); }
  }

  /** The rest of a signature's report: what the certificate says, why a list was not used, and whether a
      used list that does not name the signer has run out. */
  lemma SignatureReportIff(w: World, o: Options, s: RawSignature)
    ensures var r := SignatureVerdict(w, o, s);
            && r.contact == s.contact && r.trustedChain == s.trustedChain
            && (r.mldsa <==> s.certificate.Some? && s.certificate.value.mldsa)
            && (s.certificate.None? ==> r.serial == r.fingerprint == "" && r.note == NoNote)
            && (s.certificate.Some? ==>
                  var c := s.certificate.value;
                  && Hex.Parse(r.serial) == Some(c.serial) && r.fingerprint == c.fingerprint
                  && (r.revoked <==> s.revoked || StruckOut(w, o.crl, c))
                  && (r.note == CheckFailed <==> !o.crl.NoCrl? && !CrlPassesCheck(w, o.crl, c))
                  && (r.note == StaleCrl <==>
                        && CrlPassesCheck(w, o.crl, c) && !Listed(o.crl.crl.entries, c.serial)
                        && o.crl.crl.nextUpdate != 0 && o.crl.crl.nextUpdate < o.at))
  {
    if s.certificate.Some? {
      var c := s.certificate.value;
      Hex.RoundTrip(c.serial);
      PassesCheckIff(w, o.crl, c);
      CrlVerdictIff(w, o.crl, CrlIssuer(w.intermediates, c), c, o.at);
      hide CrlPassesCheck, CrlIssuer, CrlVerdict, Hex.Print, Hex.Parse;
      assert SignatureVerdict(w, o, s).serial == Hex.Print(c.serial);
    }
  }

  /** The document's report: none exactly when it is empty, too large or does not open; otherwise its hash,
      one report per signature in order, and an error noted exactly when there is no signature to report. */
  lemma DocumentReportIff(w: World, pdf: Bytes, o: Options)
    ensures var r := Verdict(w, pdf, o);
            && (r.None? <==> pdf == [] || |pdf| > 64 * 1024 * 1024 || w.parsePdf(pdf, o.at).CannotOpen?)
            && (r.Some? ==>
                  && r.value.sha512 == w.sha512(pdf)
                  && (r.value.errors > 0 <==> r.value.signatures == [])
                  && (w.parsePdf(pdf, o.at).BuilderError? ==> r.value.signatures == [])
                  && (w.parsePdf(pdf, o.at).Signatures? ==>
                        && |r.value.signatures| == |w.parsePdf(pdf, o.at).sigs|
                        && forall i :: 0 <= i < |r.value.signatures| ==>
                             r.value.signatures[i] == SignatureVerdict(w, o, w.parsePdf(pdf, o.at).sigs[i])))
  {
  }

  /** The public id bound into a signature: what follows the prefix of its contact field, if anything does. */
  lemma PublicIdIs(r: SignatureResult, id: string)
    ensures id != "" ==> (r.PublicId() == id <==> r.contact == PUBLIC_ID_PREFIX + id)
  {
    var n := |PUBLIC_ID_PREFIX|;
    if |r.contact| > n { assert r.contact == r.contact[..n] + r.contact[n..]; }
    if r.contact == PUBLIC_ID_PREFIX + id { assert r.contact[n..] == id && r.contact[..n] == PUBLIC_ID_PREFIX; }
  }

  /** A document is valid exactly when it opens, has a signature, and every signature is sound. */
  lemma ValidIff(w: World, pdf: Bytes, o: Options)
    ensures (Verdict(w, pdf, o).Some? && Verdict(w, pdf, o).value.valid)
            <==> (&& 0 < |pdf| <= MAX_PDF_BYTES
                  && w.parsePdf(pdf, o.at).Signatures?
                  && w.parsePdf(pdf, o.at).sigs != []
                  && forall i :: 0 <= i < |w.parsePdf(pdf, o.at).sigs| ==> Sound(w, o, w.parsePdf(pdf, o.at).sigs[i]))
  {
    var parsed := w.parsePdf(pdf, o.at);
    if parsed.Signatures? {
      var rs := AllVerdicts(w, o, parsed.sigs);
      forall i | 0 <= i < |parsed.sigs| ensures rs[i].valid <==> Sound(w, o, parsed.sigs[i]) {
        SignatureValidIff(w, o, parsed.sigs[i]);
      }
    }
  }

  /** `b` lists at least what `a` lists, and passes the check for every signer `a` passes it for. */
  ghost predicate CrlExtends(w: World, a: CrlFile, b: CrlFile) {
    forall c: X509 :: StruckOut(w, a, c) ==> StruckOut(w, b, c)
  }

  /** Publishing more revocations never turns an invalid document valid. */
  lemma MoreRevocationsNeverValidate(w: World, pdf: Bytes, o: Options, larger: CrlFile)
    requires CrlExtends(w, o.crl, larger)
    ensures var before, after := Verdict(w, pdf, o), Verdict(w, pdf, o.(crl := larger));
            before.Some? == after.Some? && (before.Some? && !before.value.valid ==> !after.value.valid)
  {
    ValidIff(w, pdf, o);
    ValidIff(w, pdf, o.(crl := larger));
    var parsed := w.parsePdf(pdf, o.at);
    if parsed.Signatures? {
      forall i | 0 <= i < |parsed.sigs| && Sound(w, o.(crl := larger), parsed.sigs[i])
        ensures Sound(w, o, parsed.sigs[i]) {}
    }
  }

  /** The check fails open: a list that does not pass it has no effect on validity. */
  lemma UncheckedCrlIsIgnored(w: World, o: Options, s: RawSignature)
    requires s.certificate.Some? ==> !CrlPassesCheck(w, o.crl, s.certificate.value)
    ensures SignatureVerdict(w, o, s).valid == SignatureVerdict(w, o.(crl := NoCrl), s).valid
  {
    SignatureValidIff(w, o, s);
    SignatureValidIff(w, o.(crl := NoCrl), s);
  }

  /** Without a known issuer the list is used as it is: any parseable list that names the serial strikes
      the signature out, whoever signed it. */
  lemma UnknownIssuerIsTrusted(w: World, o: Options, s: RawSignature)
    requires s.certificate.Some? && forall k :: 0 <= k < |w.intermediates| ==> w.intermediates[k].subject != s.certificate.value.issuer
    requires o.crl.CrlFile? && Listed(o.crl.crl.entries, s.certificate.value.serial)
    ensures !SignatureVerdict(w, o, s).valid && SignatureVerdict(w, o, s).revoked
  {
    IssuerFoundIff(w.intermediates, s.certificate.value, s.certificate.value);
  }
}
