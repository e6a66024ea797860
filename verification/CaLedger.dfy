/** The offline CA: a ledger of revocations and the numbered CRLs published from it.
    CRL numbers follow section 5.2.3 of RFC 5280, reason codes section 5.3.1. */
module CaLedger {
  import opened Basics
  import opened Pki
  import Hex

  /** The `--reason` argument, as text. */
  type Reason = string

  const CESSATION: Reason := "cessationOfOperation"
  const KEY_COMPROMISE: Reason := "keyCompromise"

  /** The reasons the command knows, with their codes. */
  function ReasonCode(r: Reason): (code: Option<int>) {
    match r
    case "unspecified" => Some(0)
    case "keyCompromise" => Some(1)
    case "cACompromise" => Some(2)
    case "affiliationChanged" => Some(3)
    case "superseded" => Some(4)
    case "cessationOfOperation" => Some(5)
    case "certificateHold" => Some(6)
    case "privilegeWithdrawn" => Some(9)
    case _ => None
  }

  /** The CRLReason enumeration of section 5.3.1 of RFC 5280, by code; 7 is not used. */
  const CRL_REASONS: seq<string> := [
    "unspecified", "keyCompromise", "cACompromise", "affiliationChanged", "superseded", "cessationOfOperation",
    "certificateHold", "", "removeFromCRL", "privilegeWithdrawn", "aACompromise"]

  /** The command's codes are those of the RFC, for all its reasons but taking an entry off the list and
      attribute authorities. */
  lemma ReasonFollowsRfc(r: Reason, code: int)
    ensures ReasonCode(r) == Some(code) <==>
            0 <= code < |CRL_REASONS| && code !in {7, 8, 10} && CRL_REASONS[code] == r
  {
  }

  datatype Revocation = Revocation(serial: string, reason: Reason, code: int, at: Time)

  /** ledger.json */
  datatype Ledger = Ledger(crlNumber: nat, revocations: seq<Revocation>)

  const EMPTY_LEDGER := Ledger(0, [])

  datatype RevokeReply = Recorded | MissingSerial | BadSerial | UnknownReason | AlreadyRevoked | SaveFailed

  /** Where the `crl` command may stop: nowhere, before the new CRL file is written, or after it is
      written but before the ledger is saved. */
  datatype PublishFault = NoFault | BeforePublish | BeforeSave

  /** A CRL written to public/crl.pem, and whether the ledger was saved after it. */
  datatype Publication = Publication(crl: Crl, saved: bool)

  // ---- what the commands do to the ledger ----

  predicate HasSerial(revocations: seq<Revocation>, serial: string) {
    exists i :: 0 <= i < |revocations| && revocations[i].serial == serial
  }

  function RevokeStep(l: Ledger, serial: string, reason: Reason, now: Time, saveOk: bool): (r: (Ledger, RevokeReply)) {
    if serial == "" then (l, MissingSerial)
    else if Hex.Parse(serial).None? then (l, BadSerial)
    else if ReasonCode(reason).None? then (l, UnknownReason)
    else if HasSerial(l.revocations, serial) then (l, AlreadyRevoked)
    else if !saveOk then (l, SaveFailed)
    else (l.(revocations := l.revocations + [Revocation(serial, reason, ReasonCode(reason).value, now)]), Recorded)
  }

  /** Every recorded serial parses and every recorded time is a real one. */
  predicate LedgerOk(l: Ledger) {
    && (forall i :: 0 <= i < |l.revocations| ==> RevocationOk(l.revocations[i]))
    && (forall i, j :: 0 <= i < j < |l.revocations| ==> l.revocations[i].serial != l.revocations[j].serial)
  }

  predicate RevocationOk(r: Revocation) {
    && Hex.Parse(r.serial).Some?
    && ReasonCode(r.reason) == Some(r.code)
    && r.at != 0
  }

  function EntryOf(r: Revocation): (e: CrlEntry)
    requires RevocationOk(r)
  {
    CrlEntry(Hex.Parse(r.serial).value, r.code, r.at)
  }

  /** The CRL entries of a ledger: one per revocation, in ledger order. */
  function EntriesOf(l: Ledger): (es: seq<CrlEntry>)
    requires LedgerOk(l)
  {
    seq(|l.revocations|, i requires 0 <= i < |l.revocations| => EntryOf(l.revocations[i]))
  }

  const SEVEN_DAYS := 7 * 24 * 3600

  /** How long a list is good for: a week unless another length is asked for. */
  function Lifetime(validity: int): (d: int) {
    if validity == 0 then SEVEN_DAYS else validity
  }

  function CrlOf(l: Ledger, now: Time, validity: int): (c: Crl)
    requires LedgerOk(l)
  {
    Crl(l.crlNumber + 1, EntriesOf(l), now, now + Lifetime(validity))
  }

  predicate Parseable(l: Ledger) {
    forall i :: 0 <= i < |l.revocations| ==> Hex.Parse(l.revocations[i].serial).Some?
  }

  /** What the `crl` command signs for any ledger file whatever: nothing when a serial does not
      parse or the list would end before it starts, and otherwise the listing, an entry without a
      time taking the time of issue. */
  function SignedCrl(l: Ledger, now: Time, validity: int): (c: Option<Crl>) {
    if !Parseable(l) || validity < 0 then None
    else
      var entries := seq(|l.revocations|, i requires 0 <= i < |l.revocations| =>
        var r := l.revocations[i];
        CrlEntry(Hex.Parse(r.serial).value, r.code, if r.at == 0 then now else r.at));
      Some(Crl(l.crlNumber + 1, entries, now, now + Lifetime(validity)))
  }

  /** A ledger written by the commands yields its own CRL, exactly when the validity is not negative. */
  lemma SoundLedgerIsSigned(l: Ledger, now: Time, validity: int)
    requires LedgerOk(l)
    ensures SignedCrl(l, now, validity) == if validity >= 0 then Some(CrlOf(l, now, validity)) else None
  {
    assert forall i :: 0 <= i < |l.revocations| ==> RevocationOk(l.revocations[i]);
    if validity >= 0 { assert SignedCrl(l, now, validity).value.entries == EntriesOf(l); }
  }

  // ---- the commands ----

  datatype LedgerSerial = Nil | Number(n: int)

  datatype RevokedEntry = RevokedEntry(serial: LedgerSerial, reason: int, at: Time)

  /** The CA directory: ledger.json and the history of public/crl.pem. */
  class CaAdmin {
    var ledger: Ledger
    var published: seq<Publication>

    constructor ()
      ensures ledger == EMPTY_LEDGER && published == []
    {
      ledger, published := EMPTY_LEDGER, [];
    }

    /** `ca-admin revoke` */
    method Revoke(serial: string, reason: Reason, now: Time, saveOk: bool) returns (reply: RevokeReply)
      modifies this`ledger
      ensures (ledger, reply) == RevokeStep(old(ledger), serial, reason, now, saveOk)
    {
      if serial == "" { return MissingSerial; }
      if Hex.Parse(serial).None? { return BadSerial; }
      if ReasonCode(reason).None? { return UnknownReason; }
      var l := ledger;
      for k := 0 to |l.revocations|
        invariant ledger == old(ledger)
        invariant !HasSerial(l.revocations[..k], serial)
      {
        if l.revocations[k].serial == serial { return AlreadyRevoked; }
      }
      assert l.revocations[..|l.revocations|] == l.revocations;
      l := l.(revocations := l.revocations + [Revocation(serial, reason, ReasonCode(reason).value, now)]);
      if !saveOk { return SaveFailed; }
      ledger := l;
      return Recorded;
    }

    /** `ca-admin crl`: parse the ledger's serials, number the list, sign it, write it, save the ledger. */
    method Publish(now: Time, validity: int, fault: PublishFault) returns (crl: Option<Crl>)
      modifies this
      ensures var signed := SignedCrl(old(ledger), now, validity);
              var written := signed.Some? && !fault.BeforePublish?;
              var saved := written && !fault.BeforeSave?;
              && crl == (if saved then signed else None)
              && ledger == (if saved then old(ledger).(crlNumber := old(ledger).crlNumber + 1) else old(ledger))
              && published == old(published) + (if written then [Publication(signed.value, saved)] else [])
    {
      var l := ledger;
      var rl: seq<RevokedEntry> := [];
      for k := 0 to |l.revocations|
        invariant |rl| == k
        invariant forall i :: 0 <= i < k ==>
          var r := l.revocations[i];
          rl[i] == RevokedEntry(match Hex.Parse(r.serial) case Some(v) => Number(v) case None => Nil, r.code, r.at)
      {
        var r := l.revocations[k];
        var n := match Hex.Parse(r.serial) case Some(v) => Number(v) case None => Nil;
        rl := rl + [RevokedEntry(n, r.code, r.at)];
      }
      l := l.(crlNumber := l.crlNumber + 1);
      var made := NewCRLDetailed(rl, l.crlNumber, now, validity);
      if made.None? { return None; }
      assert Parseable(ledger);
      assert made.value.entries == SignedCrl(ledger, now, validity).value.entries;
      if fault.BeforePublish? { return None; }
      published := published + [Publication(made.value, fault.NoFault?)];
      if fault.BeforeSave? { return None; }
      ledger := l;
      return made;
    }
  }

  /** Turns ledger entries into CRL entries; the X.509 library refuses a nil serial and a list whose
      next update lies before this one. */
  method NewCRLDetailed(entries: seq<RevokedEntry>, number: nat, now: Time, validity: int) returns (crl: Option<Crl>)
    ensures crl.None? <==> validity < 0 || exists i :: 0 <= i < |entries| && entries[i].serial.Nil?
    ensures crl.Some? ==>
      && crl.value.number == number && crl.value.thisUpdate == now
      && crl.value.nextUpdate == now + (if validity == 0 then 7 * 24 * 3600 else validity) > now
      && |crl.value.entries| == |entries|
      && (forall i :: 0 <= i < |entries| ==>
            && Number(crl.value.entries[i].serial) == entries[i].serial
            && crl.value.entries[i].reason == entries[i].reason
            && crl.value.entries[i].at == if entries[i].at == 0 then now else entries[i].at)
  {
    var valid := Lifetime(validity);
    var rl: seq<CrlEntry> := [];
    for k := 0 to |entries|
      invariant |rl| == k
      invariant forall i :: 0 <= i < k ==>
        && entries[i].serial == Number(rl[i].serial)
        && rl[i].reason == entries[i].reason
        && rl[i].at == if entries[i].at == 0 then now else entries[i].at
    {
      var e := entries[k];
      if e.serial.Nil? { return None; }
      rl := rl + [CrlEntry(e.serial.n, e.reason, if e.at == 0 then now else e.at)];
    }
    if now + valid < now { return None; }
    return Some(Crl(number, rl, now, now + valid));
  }

  // ---- runs of commands ----

  datatype Command =
    | RevokeCmd(serial: string, reason: Reason, at: Time, saveOk: bool)
    | PublishCmd(now: Time, validity: int, fault: PublishFault)

  datatype CaState = CaState(ledger: Ledger, published: seq<Publication>)

  const INITIAL := CaState(EMPTY_LEDGER, [])

  /** The clock never reads the zero time. */
  predicate LegalCommand(c: Command) {
    c.RevokeCmd? ==> c.at != 0
  }

  function Exec(s: CaState, c: Command): (s': CaState)
    requires LedgerOk(s.ledger) && LegalCommand(c)
    ensures LedgerOk(s'.ledger)
  {
    match c
    case RevokeCmd(serial, reason, at, saveOk) =>
      s.(ledger := RevokeStep(s.ledger, serial, reason, at, saveOk).0)
    case PublishCmd(now, validity, fault) =>
      if fault.BeforePublish? || validity < 0 then s
      else
        var pub := Publication(CrlOf(s.ledger, now, validity), fault.NoFault?);
        CaState(
          if fault.NoFault? then s.ledger.(crlNumber := s.ledger.crlNumber + 1) else s.ledger,
          s.published + [pub])
  }

  function Run(s: CaState, cs: seq<Command>): (s': CaState)
    requires LedgerOk(s.ledger) && forall i :: 0 <= i < |cs| ==> LegalCommand(cs[i])
    ensures LedgerOk(s'.ledger)
    decreases |cs|
  {
    if cs == [] then s else Run(Exec(s, cs[0]), cs[1..])
  }

  function SavedCount(ps: seq<Publication>): (n: nat)
    ensures n <= |ps|
  {
    if ps == [] then 0 else SavedCount(ps[..|ps| - 1]) + if ps[|ps| - 1].saved then 1 else 0
  }

  /** Each CRL is numbered after the publications that were saved before it. */
  predicate Numbered(s: CaState) {
    && s.ledger.crlNumber == SavedCount(s.published)
    && (forall j :: 0 <= j < |s.published| ==> s.published[j].crl.number == 1 + SavedCount(s.published[..j]))
  }

  /** The CRLs form a chain of prefixes ending below the ledger. */
  predicate Chained(s: CaState)
    requires LedgerOk(s.ledger)
  {
    && (forall j :: 0 <= j < |s.published| ==> s.published[j].crl.entries <= EntriesOf(s.ledger))
    && (forall i, j :: 0 <= i <= j < |s.published| ==> s.published[i].crl.entries <= s.published[j].crl.entries)
  }

  /** What every run of the CA keeps. */
  predicate CaInv(s: CaState) {
    LedgerOk(s.ledger) && Numbered(s) && Chained(s)
  }

  lemma EntriesGrow(l: Ledger, serial: string, reason: Reason, now: Time, saveOk: bool)
    requires LedgerOk(l) && now != 0
    ensures LedgerOk(RevokeStep(l, serial, reason, now, saveOk).0)
    ensures EntriesOf(l) <= EntriesOf(RevokeStep(l, serial, reason, now, saveOk).0)
  {
    var l' := RevokeStep(l, serial, reason, now, saveOk).0;
    forall i | 0 <= i < |l.revocations| ensures l'.revocations[i] == l.revocations[i] {}
  }

  lemma NumberingExtends(s: CaState, p: Publication, l: Ledger)
    requires Numbered(s) && p.crl.number == s.ledger.crlNumber + 1
    requires l.crlNumber == s.ledger.crlNumber + if p.saved then 1 else 0
    ensures Numbered(CaState(l, s.published + [p]))
  {
    var ps := s.published + [p];
    assert ps[..|ps| - 1] == s.published;
    forall j | 0 <= j < |ps| ensures ps[j].crl.number == 1 + SavedCount(ps[..j]) {
      assert ps[..j] == s.published[..j];
      assert j == |s.published| ==> s.published[..j] == s.published;
    }
  }

  lemma NumberingKept(s: CaState, c: Command)
    requires LedgerOk(s.ledger) && LegalCommand(c) && Numbered(s)
    ensures Numbered(Exec(s, c)) && s.published <= Exec(s, c).published
  {
    hide LedgerOk, Numbered;
    match c
    case RevokeCmd(serial, reason, at, saveOk) => NumberingUntouched(s, RevokeStep(s.ledger, serial, reason, at, saveOk).0);
    case PublishCmd(now, validity, fault) =>
      if !fault.BeforePublish? && validity >= 0 {
        NumberingExtends(s, Publication(CrlOf(s.ledger, now, validity), fault.NoFault?), Exec(s, c).ledger);
      }
  }

  lemma NumberingUntouched(s: CaState, l: Ledger)
    requires Numbered(s) && l.crlNumber == s.ledger.crlNumber
    ensures Numbered(s.(ledger := l))
  {
  }

  lemma ChainKept(s: CaState, c: Command)
    requires LedgerOk(s.ledger) && LegalCommand(c) && Chained(s)
    ensures Chained(Exec(s, c)) && EntriesOf(s.ledger) <= EntriesOf(Exec(s, c).ledger)
  {
    var s' := Exec(s, c);
    if c.RevokeCmd? {
      EntriesGrow(s.ledger, c.serial, c.reason, c.at, c.saveOk);
      assert s'.published == s.published;
    } else {
      assert EntriesOf(s'.ledger) == EntriesOf(s.ledger);
      assert forall j :: 0 <= j < |s'.published| ==> s'.published[j].crl.entries <= EntriesOf(s.ledger);
    }
  }

  lemma ExecKeepsInv(s: CaState, c: Command)
    requires CaInv(s) && LegalCommand(c)
    ensures CaInv(Exec(s, c))
    ensures s.published <= Exec(s, c).published && EntriesOf(s.ledger) <= EntriesOf(Exec(s, c).ledger)
  {
    NumberingKept(s, c);
    ChainKept(s, c);
  }

  /** Invariant over whole runs, with every kind of I/O failure. */
  lemma {:induction false} RunKeepsInv(s: CaState, cs: seq<Command>)
    requires CaInv(s) && forall i :: 0 <= i < |cs| ==> LegalCommand(cs[i])
    ensures CaInv(Run(s, cs))
    ensures s.published <= Run(s, cs).published && EntriesOf(s.ledger) <= EntriesOf(Run(s, cs).ledger)
    decreases |cs|
  {
    if cs != [] {
      ExecKeepsInv(s, cs[0]);
      RunKeepsInv(Exec(s, cs[0]), cs[1..]);
    }
  }

  lemma {:induction false} SavedCountFull(ps: seq<Publication>)
    ensures SavedCount(ps) == |ps| <==> forall i :: 0 <= i < |ps| ==> ps[i].saved
  {
    if ps != [] {
      var front := ps[..|ps| - 1];
      SavedCountFull(front);
      if forall i :: 0 <= i < |ps| ==> ps[i].saved {
        assert forall i :: 0 <= i < |front| ==> front[i] == ps[i];
      }
    }
  }

  lemma NumbersInOrder(s: CaState)
    requires Numbered(s)
    ensures var ps := s.published;
            (forall j :: 0 <= j < |ps| ==> ps[j].crl.number == j + 1)
            <==> (forall j :: 0 <= j < |ps| - 1 ==> ps[j].saved)
  {
    var ps := s.published;
    if forall j :: 0 <= j < |ps| - 1 ==> ps[j].saved {
      forall j | 0 <= j < |ps| ensures ps[j].crl.number == j + 1 {
        SavedCountFull(ps[..j]);
      }
    }
    if ps != [] && forall j :: 0 <= j < |ps| ==> ps[j].crl.number == j + 1 {
      var front := ps[..|ps| - 1];
      SavedCountFull(front);
      forall j | 0 <= j < |ps| - 1 ensures ps[j].saved {
        assert front[j] == ps[j];
      }
    }
  }

  /** CRL numbers are 1, 2, 3, ... exactly when every publication but the last had its ledger saved:
      a CRL written before a failed save gives its number to the next one as well. */
  lemma NumberingIff(cs: seq<Command>)
    requires forall i :: 0 <= i < |cs| ==> LegalCommand(cs[i])
    ensures var ps := Run(INITIAL, cs).published;
            (forall j :: 0 <= j < |ps| ==> ps[j].crl.number == j + 1)
            <==> (forall j :: 0 <= j < |ps| - 1 ==> ps[j].saved)
  {
    RunKeepsInv(INITIAL, cs);
    NumbersInOrder(Run(INITIAL, cs));
  }

  /** A CRL written just before a failed save shares its number with its successor. */
  lemma NumberReused() returns (cs: seq<Command>)
    ensures forall i :: 0 <= i < |cs| ==> LegalCommand(cs[i])
    ensures var ps := Run(INITIAL, cs).published; |ps| == 2 && ps[0].crl.number == ps[1].crl.number
  {
    var a, b := PublishCmd(1, 0, BeforeSave), PublishCmd(2, 0, NoFault);
    cs := [a, b];
    var s1 := Exec(INITIAL, a);
    assert cs[1..] == [b] && [b][1..] == [];
    assert Run(INITIAL, cs) == Run(s1, [b]) == Run(Exec(s1, b), []);
  }

  /** Each publication lists exactly the ledger's revocations at that moment, in order, with their
      reason codes; earlier publications are prefixes of it, whatever failed in between.  A negative
      validity publishes nothing. */
  lemma PublicationListsLedger(before: seq<Command>, now: Time, validity: int, fault: PublishFault)
    requires forall i :: 0 <= i < |before| ==> LegalCommand(before[i])
    requires !fault.BeforePublish?
    ensures var s := Run(INITIAL, before);
            var s' := Exec(s, PublishCmd(now, validity, fault));
            if validity < 0 then s' == s
            else
              var crl := s'.published[|s'.published| - 1].crl;
              && |crl.entries| == |s.ledger.revocations|
              && (forall i :: 0 <= i < |crl.entries| ==>
                    && Some(crl.entries[i].serial) == Hex.Parse(s.ledger.revocations[i].serial)
                    && Some(crl.entries[i].reason) == ReasonCode(s.ledger.revocations[i].reason))
              && (forall j :: 0 <= j < |s'.published| ==> s'.published[j].crl.entries <= crl.entries)
  {
    RunKeepsInv(INITIAL, before);
    ExecKeepsInv(Run(INITIAL, before), PublishCmd(now, validity, fault));
  }

  /** Revoking a printed serial, successfully or because it was there already, and then publishing,
      lists the integer the serial was printed from. */
  lemma RevokedThenListed(l: Ledger, n: int, reason: Reason, at: Time, now: Time, validity: int)
    requires LedgerOk(l) && ReasonCode(reason).Some? && at != 0
    ensures var (l', reply) := RevokeStep(l, Hex.Print(n), reason, at, true);
            && LedgerOk(l') && (reply.Recorded? || reply.AlreadyRevoked?)
            && Listed(CrlOf(l', now, validity).entries, n)
  {
    Hex.RoundTrip(n);
    Hex.CanonicalIff(Hex.Print(n), n);
    var (l', reply) := RevokeStep(l, Hex.Print(n), reason, at, true);
    assert HasSerial(l'.revocations, Hex.Print(n)) by {
      if reply.Recorded? { assert l'.revocations[|l.revocations|].serial == Hex.Print(n); }
    }
    var i :| 0 <= i < |l'.revocations| && l'.revocations[i].serial == Hex.Print(n);
    assert EntriesOf(l')[i].serial == n;
  }

  /** Which answer a revocation gets, and that only a recorded one changes the ledger: by one last entry
      with the serial, the reason, its code and the time. */
  lemma RevokeOutcomeIff(l: Ledger, serial: string, reason: Reason, now: Time, saveOk: bool)
    ensures var (l', reply) := RevokeStep(l, serial, reason, now, saveOk);
            var parses, known, there := Hex.Parse(serial).Some?, ReasonCode(reason).Some?, HasSerial(l.revocations, serial);
            && (reply == MissingSerial <==> serial == "")
            && (reply == BadSerial <==> serial != "" && !parses)
            && (reply == UnknownReason <==> parses && !known)
            && (reply == AlreadyRevoked <==> parses && known && there)
            && (reply == SaveFailed <==> parses && known && !there && !saveOk)
            && (reply == Recorded <==> parses && known && !there && saveOk)
            && l'.crlNumber == l.crlNumber
            && (reply != Recorded ==> l' == l)
            && (reply == Recorded ==>
                  && |l'.revocations| == |l.revocations| + 1 && l.revocations <= l'.revocations
                  && var r := l'.revocations[|l.revocations|];
                     r.serial == serial && r.reason == reason && Some(r.code) == ReasonCode(reason) && r.at == now)
  {
    Hex.ParseIff(serial);
    hide Hex.Parse, ReasonCode;
  }

  // ---- one serial, two spellings ----

  /** On canonical text, comparing serials as text is comparing integers. */
  lemma TextIdentifiesSerial(a: string, b: string)
    requires Hex.Canonical(a) && Hex.Canonical(b) && Hex.Parse(a).Some? && Hex.Parse(b).Some?
    ensures a == b <==> Hex.Parse(a) == Hex.Parse(b)
  {
    Hex.CanonicalIff(a, Hex.Parse(a).value);
    Hex.CanonicalIff(b, Hex.Parse(b).value);
  }

  /** No integer is recorded twice. */
  ghost predicate DistinctSerials(l: Ledger) {
    forall i, j :: 0 <= i < j < |l.revocations| ==> Hex.Parse(l.revocations[i].serial) != Hex.Parse(l.revocations[j].serial)
  }

  /** Some recorded text spells the same integer. */
  predicate Spelled(l: Ledger, serial: string) {
    exists i :: 0 <= i < |l.revocations| && Hex.Parse(l.revocations[i].serial) == Hex.Parse(serial)
  }

  /** Recording keeps integers distinct exactly when the text is refused or spells none of them. */
  lemma RevokeKeepsDistinctIff(l: Ledger, serial: string, reason: Reason, now: Time, saveOk: bool)
    requires DistinctSerials(l)
    ensures var (l', reply) := RevokeStep(l, serial, reason, now, saveOk);
            DistinctSerials(l') <==> !reply.Recorded? || !Spelled(l, serial)
  {
    hide Hex.Parse;
    var (l', reply) := RevokeStep(l, serial, reason, now, saveOk);
    if reply.Recorded? {
      var n := |l.revocations|;
      assert l'.revocations[n].serial == serial;
      assert forall i :: 0 <= i < n ==> l'.revocations[i] == l.revocations[i];
      if Spelled(l, serial) {
        var i :| 0 <= i < n && Hex.Parse(l.revocations[i].serial) == Hex.Parse(serial);
        assert Hex.Parse(l'.revocations[i].serial) == Hex.Parse(l'.revocations[n].serial);
      }
    }
  }

  /** Canonical text never records an integer twice. */
  lemma CanonicalKeepsDistinct(l: Ledger, serial: string, reason: Reason, now: Time, saveOk: bool)
    requires DistinctSerials(l) && Hex.Canonical(serial)
    requires forall i :: 0 <= i < |l.revocations| ==> Hex.Canonical(l.revocations[i].serial) && Hex.Parse(l.revocations[i].serial).Some?
    ensures DistinctSerials(RevokeStep(l, serial, reason, now, saveOk).0)
  {
    hide Hex.Parse, Hex.Canonical;
    RevokeKeepsDistinctIff(l, serial, reason, now, saveOk);
    if RevokeStep(l, serial, reason, now, saveOk).1.Recorded? && Spelled(l, serial) {
      var i :| 0 <= i < |l.revocations| && Hex.Parse(l.revocations[i].serial) == Hex.Parse(serial);
      TextIdentifiesSerial(l.revocations[i].serial, serial);
    }
  }

  lemma SpellingsOfTen()
    ensures Hex.Parse("a") == Some(10) && Hex.Parse("A") == Some(10)
  {
    assert "a"[..0] == "" && "A"[..0] == "";
    assert Hex.ParseDigits("a") == Some(10) && Hex.ParseDigits("A") == Some(10);
  }

  /** Revoking "a" and then "A" records the integer 10 twice, and the next CRL lists it twice. */
  lemma TwoSpellingsRecorded() returns (cs: seq<Command>)
    ensures forall i :: 0 <= i < |cs| ==> LegalCommand(cs[i])
    ensures var l := Run(INITIAL, cs).ledger;
            && !DistinctSerials(l) && |EntriesOf(l)| == 2
            && EntriesOf(l)[0].serial == 10 && EntriesOf(l)[1].serial == 10
  {
    var a, b := RevokeCmd("a", KEY_COMPROMISE, 1, true), RevokeCmd("A", KEY_COMPROMISE, 2, true);
    cs := [a, b];
    SpellingsOfTen();
    hide Hex.Parse;
    var s1 := Exec(INITIAL, a);
    var s2 := Exec(s1, b);
    assert s1.ledger.revocations == [Revocation("a", KEY_COMPROMISE, 1, 1)];
    assert s2.ledger.revocations == [Revocation("a", KEY_COMPROMISE, 1, 1), Revocation("A", KEY_COMPROMISE, 1, 2)];
    assert cs[1..] == [b] && [b][1..] == [];
    assert Run(INITIAL, cs) == Run(s1, [b]) == Run(s2, []) == s2;
    assert EntriesOf(s2.ledger)[0].serial == 10 && EntriesOf(s2.ledger)[1].serial == 10;
  }
}
