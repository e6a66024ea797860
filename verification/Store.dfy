/** The receiver's records, and the in-memory store that holds them.  Records are keyed by their id,
    so the id is not repeated inside them; names, labels, times shown to people and the audit log
    play no part in any decision and are not modelled. */
module Store {
  import opened Basics

  datatype Role = RoleUser | RoleAdmin | RoleSuperAdmin
  datatype AccountStatus = AccountPending | AccountActive | AccountDisabled
  datatype DeviceStatus = DeviceActive | DeviceLost
  datatype EnrollmentStatus = EnrollmentSubmitted | EnrollmentApproved | EnrollmentIssued
  datatype CertStatus = CertActive | CertRevoked
  datatype ReservationStatus = ReservationReserved | ReservationAccepted
  datatype Verification = VerificationAccepted | VerificationStoredOnly

  datatype Account = Account(email: string, role: Role, status: AccountStatus)
  datatype Device = Device(account: Id, status: DeviceStatus)
  datatype Enrollment = Enrollment(device: Id, account: Id, csr: Bytes, status: EnrollmentStatus)
  datatype Certificate = Certificate(
    enrollment: Id, device: Id, account: Id, serial: string, fingerprint: string, pem: Bytes,
    notBefore: Time, status: CertStatus)
  datatype Reservation = Reservation(account: Id, device: Id, originalSha512: string, status: ReservationStatus)
  datatype Signature = Signature(
    account: Id, device: Id, certificate: Id, serial: string, fingerprint: string,
    originalSha512: string, signedSha512: string, objectKey: string, size: nat, verification: Verification)

  /** The store's contents.  `used` is every id ever drawn: random ids do not repeat. */
  datatype Db = Db(
    accounts: map<Id, Account>, emails: map<string, Id>, devices: map<Id, Device>,
    enrollments: map<Id, Enrollment>, certificates: map<Id, Certificate>,
    reservations: map<Id, Reservation>, signatures: map<Id, Signature>,
    objects: map<string, Bytes>, used: set<Id>)

  const EMPTY_DB := Db(map[], map[], map[], map[], map[], map[], map[], map[], {})

  // ---- lookups ----

  /** A newest certificate of the device, or None when it has none.  With equal start times Go's
      map order decides, so several answers are allowed. */
  ghost predicate NewestOfDevice(certificates: map<Id, Certificate>, device: Id, r: Option<Id>) {
    match r
    case None => forall k :: k in certificates ==> certificates[k].device != device
    case Some(id) =>
      && id in certificates && certificates[id].device == device
      && forall k :: k in certificates && certificates[k].device == device
           ==> certificates[k].notBefore <= certificates[id].notBefore
  }

  /** One answer per serial: what looking certificates up by serial may return. */
  ghost predicate SerialIndex(certificates: map<Id, Certificate>, index: map<string, Id>) {
    && (forall id :: id in certificates ==> certificates[id].serial in index)
    && (forall sn :: sn in index ==> index[sn] in certificates && certificates[index[sn]].serial == sn)
  }

  /** The certificates of an account, oldest first. */
  ghost predicate AccountListing(certificates: map<Id, Certificate>, account: Id, list: seq<Id>) {
    && Distinct(list)
    && (forall k :: k in list <==> k in certificates && certificates[k].account == account)
    && (forall i, j :: 0 <= i < j < |list| ==> certificates[list[i]].notBefore <= certificates[list[j]].notBefore)
  }

  ghost predicate UniqueSerials(certificates: map<Id, Certificate>) {
    forall a, b :: a in certificates && b in certificates && certificates[a].serial == certificates[b].serial ==> a == b
  }

  // ---- the store ----

  class Memory {
    var accounts: map<Id, Account>
    var emails: map<string, Id>
    var devices: map<Id, Device>
    var enrollments: map<Id, Enrollment>
    var certificates: map<Id, Certificate>
    var reservations: map<Id, Reservation>
    var signatures: map<Id, Signature>
    var objects: map<string, Bytes>
    ghost var used: set<Id>

    ghost function View(): (db: Db)
      reads this
    {
      Db(accounts, emails, devices, enrollments, certificates, reservations, signatures, objects, used)
    }

    constructor ()
      ensures View() == EMPTY_DB
    {
      accounts, emails, devices, enrollments := map[], map[], map[], map[];
      certificates, reservations, signatures, objects := map[], map[], map[], map[];
      used := {};
    }

    method CreateAccount(id: Id, a: Account) returns (ok: bool)
      modifies this
      ensures ok == (a.email !in old(emails))
      ensures View() ==
        if ok then old(View()).(accounts := old(accounts)[id := a], emails := old(emails)[a.email := id], used := old(used) + {id})
        else old(View())
    {
      if a.email in emails { return false; }
      used := used + {id};
      accounts := accounts[id := a];
      emails := emails[a.email := id];
      return true;
    }

    method SetAccountStatus(id: Id, status: AccountStatus) returns (ok: bool)
      modifies this
      ensures ok == (id in old(accounts))
      ensures View() ==
        if ok then old(View()).(accounts := old(accounts)[id := old(accounts)[id].(status := status)]) else old(View())
    {
      if id !in accounts { return false; }
      accounts := accounts[id := accounts[id].(status := status)];
      return true;
    }

    method DeleteAccount(id: Id) returns (ok: bool)
      modifies this
      ensures ok == (id in old(accounts))
      ensures View() ==
        if ok then old(View()).(accounts := old(accounts) - {id}, emails := old(emails) - {old(accounts)[id].email})
        else old(View())
    {
      if id !in accounts { return false; }
      var email := accounts[id].email;
      accounts := accounts - {id};
      emails := emails - {email};
      return true;
    }

    method CreateDevice(id: Id, d: Device)
      modifies this
      ensures View() == old(View()).(devices := old(devices)[id := d], used := old(used) + {id})
    {
      used := used + {id};
      devices := devices[id := d];
    }

    method SetDeviceStatus(id: Id, status: DeviceStatus) returns (ok: bool)
      modifies this
      ensures ok == (id in old(devices))
      ensures View() ==
        if ok then old(View()).(devices := old(devices)[id := old(devices)[id].(status := status)]) else old(View())
    {
      if id !in devices { return false; }
      devices := devices[id := devices[id].(status := status)];
      return true;
    }

    method CreateEnrollment(id: Id, e: Enrollment)
      modifies this
      ensures View() == old(View()).(enrollments := old(enrollments)[id := e], used := old(used) + {id})
    {
      used := used + {id};
      enrollments := enrollments[id := e];
    }

    method SetEnrollmentStatus(id: Id, status: EnrollmentStatus) returns (ok: bool)
      modifies this
      ensures ok == (id in old(enrollments))
      ensures View() ==
        if ok then old(View()).(enrollments := old(enrollments)[id := old(enrollments)[id].(status := status)]) else old(View())
    {
      if id !in enrollments { return false; }
      enrollments := enrollments[id := enrollments[id].(status := status)];
      return true;
    }

    method CreateCertificate(id: Id, c: Certificate)
      modifies this
      ensures View() == old(View()).(certificates := old(certificates)[id := c], used := old(used) + {id})
    {
      used := used + {id};
      certificates := certificates[id := c];
    }

    method CertificateByDevice(device: Id) returns (r: Option<Id>)
      ensures NewestOfDevice(certificates, device, r)
    {
      var order := IterationOrder(certificates);
      r := None;
      for k := 0 to |order|
        invariant r.Some? ==> r.value in certificates && certificates[r.value].device == device
        invariant forall i :: 0 <= i < k && certificates[order[i]].device == device
                    ==> r.Some? && certificates[order[i]].notBefore <= certificates[r.value].notBefore
      {
        var c := certificates[order[k]];
        if c.device == device && (r.None? || c.notBefore > certificates[r.value].notBefore) {
          r := Some(order[k]);
        }
      }
      forall k | k in certificates && certificates[k].device == device
        ensures r.Some? && certificates[k].notBefore <= certificates[r.value].notBefore
      {
        assert k in order;
      }
    }

    method CertificateBySerial(serial: string) returns (r: Option<Id>)
      ensures r.None? ==> forall k :: k in certificates ==> certificates[k].serial != serial
      ensures r.Some? ==> r.value in certificates && certificates[r.value].serial == serial
    {
      var order := IterationOrder(certificates);
      for k := 0 to |order|
        invariant forall i :: 0 <= i < k ==> certificates[order[i]].serial != serial
      {
        if certificates[order[k]].serial == serial { return Some(order[k]); }
      }
      forall k | k in certificates ensures certificates[k].serial != serial {
        assert k in order;
      }
      return None;
    }

    /** Collects the account's certificates and sorts them by start time. */
    method CertificatesByAccount(account: Id) returns (list: seq<Id>)
      ensures AccountListing(certificates, account, list)
    {
      var order := IterationOrder(certificates);
      list := [];
      for k := 0 to |order|
        invariant forall x :: x in list ==> x in order[..k]
        invariant forall i :: 0 <= i < k && certificates[order[i]].account == account ==> order[i] in list
        invariant forall x :: x in list ==> x in certificates && certificates[x].account == account
        invariant Distinct(list)
        invariant ByStart(certificates, list)
      {
        var id := order[k];
        assert id !in order[..k];
        assert order[..k + 1] == order[..k] + [id];
        if certificates[id].account == account {
          list := InsertByStart(certificates, list, id);
        }
      }
      forall k | k in certificates && certificates[k].account == account ensures k in list {
        assert k in order;
      }
    }

    method RevokeCertificate(id: Id) returns (ok: bool)
      modifies this
      ensures ok == (id in old(certificates))
      ensures View() ==
        if ok then old(View()).(certificates := old(certificates)[id := old(certificates)[id].(status := CertRevoked)]) else old(View())
    {
      if id !in certificates { return false; }
      certificates := certificates[id := certificates[id].(status := CertRevoked)];
      return true;
    }

    method CreateReservation(id: Id, r: Reservation)
      modifies this
      ensures View() == old(View()).(reservations := old(reservations)[id := r], used := old(used) + {id})
    {
      used := used + {id};
      reservations := reservations[id := r];
    }

    method SetReservationStatus(id: Id, status: ReservationStatus) returns (ok: bool)
      modifies this
      ensures ok == (id in old(reservations))
      ensures View() ==
        if ok then old(View()).(reservations := old(reservations)[id := old(reservations)[id].(status := status)]) else old(View())
    {
      if id !in reservations { return false; }
      reservations := reservations[id := reservations[id].(status := status)];
      return true;
    }

    method CreateSignature(publicId: Id, s: Signature) returns (ok: bool)
      modifies this
      ensures ok == (publicId !in old(signatures))
      ensures View() == if ok then old(View()).(signatures := old(signatures)[publicId := s]) else old(View())
    {
      if publicId in signatures { return false; }
      signatures := signatures[publicId := s];
      return true;
    }

    method PutObject(key: string, data: Bytes)
      modifies this
      ensures View() == old(View()).(objects := old(objects)[key := data])
    {
      objects := objects[key := data];
    }
  }

  ghost predicate ByStart(certificates: map<Id, Certificate>, list: seq<Id>) {
    && (forall x :: x in list ==> x in certificates)
    && forall i, j :: 0 <= i < j < |list| ==> certificates[list[i]].notBefore <= certificates[list[j]].notBefore
  }

  method InsertByStart(certificates: map<Id, Certificate>, list: seq<Id>, id: Id) returns (r: seq<Id>)
    requires id in certificates && id !in list && Distinct(list) && ByStart(certificates, list)
    ensures Distinct(r) && ByStart(certificates, r)
    ensures forall x :: x in r <==> x in list || x == id
  {
    var k := |list|;
    while k > 0 && certificates[list[k - 1]].notBefore > certificates[id].notBefore
      invariant 0 <= k <= |list|
      invariant forall i :: k <= i < |list| ==> certificates[id].notBefore < certificates[list[i]].notBefore
    {
      k := k - 1;
    }
    r := list[..k] + [id] + list[k..];
    InsertedMembers(list, id, k);
    InsertedInOrder(certificates, list, id, k);
  }

  lemma InsertedMembers<T>(list: seq<T>, id: T, k: nat)
    requires k <= |list| && id !in list && Distinct(list)
    ensures Distinct(list[..k] + [id] + list[k..])
    ensures forall x :: x in list[..k] + [id] + list[k..] <==> x in list || x == id
  {
    var r := list[..k] + [id] + list[k..];
    forall x ensures x in r <==> x in list || x == id {
      assert list == list[..k] + list[k..];
    }
    assert forall i :: 0 <= i < |r| && i != k ==> r[i] == list[if i < k then i else i - 1];
  }

  lemma InsertedInOrder(certificates: map<Id, Certificate>, list: seq<Id>, id: Id, k: nat)
    requires k <= |list| && id in certificates && ByStart(certificates, list)
    requires k > 0 ==> certificates[list[k - 1]].notBefore <= certificates[id].notBefore
    requires forall i :: k <= i < |list| ==> certificates[id].notBefore < certificates[list[i]].notBefore
    ensures ByStart(certificates, list[..k] + [id] + list[k..])
  {
    var r := list[..k] + [id] + list[k..];
    assert forall i :: 0 <= i < |r| && i != k ==> r[i] == list[if i < k then i else i - 1];
  }
}
