/** The desktop client's key envelope: a random wrapping key seals the private key, an optional PIN
    key seals the wrapping key, and the operating system seals that.  Buffers are arrays, wiped in
    place. */
module Envelope {
  import opened Basics

  const BLOB_VERSION := 1

  /** Foreign cryptography: AEAD seal and open (key, nonce, text), the PIN's key derivation, and the
      account-bound protection of the operating system. */
  datatype Crypto = Crypto(
    seal: (Bytes, Bytes, Bytes) -> Bytes, open: (Bytes, Bytes, Bytes) -> Option<Bytes>,
    kdf: (string, Bytes) -> Bytes, protect: Bytes -> Bytes, unprotect: Bytes -> Option<Bytes>)

  /** Opening undoes sealing under the same key and fails under any other. */
  ghost predicate Ideal(c: Crypto) {
    && (forall k, n, p :: |k| == 32 && |n| == 12 ==> c.open(k, n, c.seal(k, n, p)) == Some(p))
    && (forall k, k', n, p {:trigger c.open(k', n, c.seal(k, n, p))} ::
          |k| == 32 && |k'| == 32 && |n| == 12 && k != k' ==> c.open(k', n, c.seal(k, n, p)) == None)
    && (forall pin, salt :: |c.kdf(pin, salt)| == 32)
    && (forall b :: c.unprotect(c.protect(b)) == Some(b))
  }

  /** Fresh randomness for one wrap. */
  datatype Draw = Draw(wrapKey: Bytes, keyNonce: Bytes, salt: Bytes, wrapNonce: Bytes)

  predicate DrawOk(d: Draw) {
    |d.wrapKey| == 32 && |d.keyNonce| == 12 && |d.salt| == 16 && |d.wrapNonce| == 12
  }

  /** device-key.pqk */
  datatype Blob = Blob(
    version: int, salt: Option<Bytes>, keyNonce: Bytes, keyCt: Bytes, wrapNonce: Bytes, wrapCt: Bytes, dpapi: Bytes)

  // ---- what the envelope is ----

  function Wrap(c: Crypto, key: Bytes, pin: string, d: Draw): (b: Blob) {
    var keyCt := c.seal(d.wrapKey, d.keyNonce, key);
    if pin == "" then Blob(BLOB_VERSION, None, d.keyNonce, keyCt, [], [], c.protect(d.wrapKey))
    else
      var wrapCt := c.seal(c.kdf(pin, d.salt), d.wrapNonce, d.wrapKey);
      Blob(BLOB_VERSION, Some(d.salt), d.keyNonce, keyCt, d.wrapNonce, wrapCt, c.protect(wrapCt))
  }

  function WrapKeyOf(c: Crypto, b: Blob, inner: Bytes, pin: string): (r: Option<Bytes>) {
    if b.salt.None? then Some(inner)
    else if pin == "" then None
    else c.open(c.kdf(pin, b.salt.value), b.wrapNonce, inner)
  }

  function Unwrap(c: Crypto, b: Blob, pin: string): (r: Option<Bytes>) {
    if b.version != BLOB_VERSION then None
    else
      match c.unprotect(b.dpapi)
      case None => None
      case Some(inner) =>
        match WrapKeyOf(c, b, inner, pin)
        case None => None
        case Some(wrapKey) => c.open(wrapKey, b.keyNonce, b.keyCt)
  }

  /** Wrapping with one PIN and unwrapping with another gives the key back exactly when there was no
      PIN, or the other PIN is non-empty and derives the same key; otherwise it fails. */
  lemma UnwrapIff(c: Crypto, key: Bytes, pin: string, d: Draw, other: string)
    requires Ideal(c) && DrawOk(d)
    ensures Unwrap(c, Wrap(c, key, pin, d), other) ==
            if pin == "" || (other != "" && c.kdf(other, d.salt) == c.kdf(pin, d.salt)) then Some(key) else None
  {
    assert c.open(d.wrapKey, d.keyNonce, c.seal(d.wrapKey, d.keyNonce, key)) == Some(key);
    if pin != "" && other != "" {
      var pk, pk' := c.kdf(pin, d.salt), c.kdf(other, d.salt);
      assert |pk| == 32 && |pk'| == 32;
      var ct := c.seal(pk, d.wrapNonce, d.wrapKey);
      assert c.open(pk', d.wrapNonce, ct) == if pk' == pk then Some(d.wrapKey) else None;
    }
  }

  /** Unwrapping any blob whatever: it yields a key exactly when the version is known, the operating system
      releases the inner bytes, they or, with a PIN, what the PIN key opens them to, are a wrapping key, and
      that opens the sealed key. */
  lemma UnwrapNeeds(c: Crypto, b: Blob, pin: string, key: Bytes)
    ensures Unwrap(c, b, pin) == Some(key) <==>
            && b.version == 1
            && exists inner, wrapKey ::
                 && c.unprotect(b.dpapi) == Some(inner)
                 && (b.salt.None? ==> wrapKey == inner)
                 && (b.salt.Some? ==> pin != "" && c.open(c.kdf(pin, b.salt.value), b.wrapNonce, inner) == Some(wrapKey))
                 && c.open(wrapKey, b.keyNonce, b.keyCt) == Some(key)
  {
  }

  // ---- histories of re-wrapping ----

  /** One PIN change: the PIN given, the new one, fresh randomness, and whether the new file landed. */
  datatype Attempt = Attempt(oldPin: string, newPin: string, draw: Draw, saved: bool)

  function Rewrapped(c: Crypto, b: Blob, a: Attempt): (b': Blob) {
    match Unwrap(c, b, a.oldPin)
    case None => b
    case Some(key) => if key == [] || !a.saved then b else Wrap(c, key, a.newPin, a.draw)
  }

  /** A PIN change re-wraps the key exactly when the old PIN opens it, it is not empty and the file lands;
      otherwise the file is as before. */
  lemma RewrappedIff(c: Crypto, b: Blob, a: Attempt, key: Bytes)
    requires Unwrap(c, b, a.oldPin) == Some(key)
    ensures Rewrapped(c, b, a) == if key != [] && a.saved then Wrap(c, key, a.newPin, a.draw) else b
    ensures forall refused: Attempt :: Unwrap(c, b, refused.oldPin) == None ==> Rewrapped(c, b, refused) == b
  {
  }

  function AfterAttempts(c: Crypto, b: Blob, attempts: seq<Attempt>): (b': Blob) {
    if attempts == [] then b
    else Rewrapped(c, AfterAttempts(c, b, attempts[..|attempts| - 1]), attempts[|attempts| - 1])
  }

  /** The PIN and randomness in force: those of the last attempt that went through. */
  function InForce(c: Crypto, b: Blob, pin: string, d: Draw, attempts: seq<Attempt>): (r: (string, Draw)) {
    if attempts == [] then (pin, d)
    else
      var n := |attempts| - 1;
      var a := attempts[n];
      var before := AfterAttempts(c, b, attempts[..n]);
      if Unwrap(c, before, a.oldPin).Some? && a.saved then (a.newPin, a.draw) else InForce(c, b, pin, d, attempts[..n])
  }

  lemma {:induction false} StillWrapsKey(c: Crypto, key: Bytes, pin: string, d: Draw, attempts: seq<Attempt>)
    requires Ideal(c) && DrawOk(d) && key != [] && forall i :: 0 <= i < |attempts| ==> DrawOk(attempts[i].draw)
    ensures var b := Wrap(c, key, pin, d);
            var (p, d') := InForce(c, b, pin, d, attempts);
            DrawOk(d') && AfterAttempts(c, b, attempts) == Wrap(c, key, p, d')
  {
    hide Ideal, Wrap, Unwrap;
    if attempts != [] {
      var n := |attempts| - 1;
      var b := Wrap(c, key, pin, d);
      StillWrapsKey(c, key, pin, d, attempts[..n]);
      var (p, d') := InForce(c, b, pin, d, attempts[..n]);
      UnwrapIff(c, key, p, d', attempts[n].oldPin);
    }
  }

  /** After any history of PIN changes, refused ones included, the PIN in force opens the envelope to
      the key first saved; and if it is not empty, another PIN opens it only if it derives the same
      PIN key. */
  lemma HistoryKeepsKey(c: Crypto, key: Bytes, pin: string, d: Draw, attempts: seq<Attempt>, other: string)
    requires Ideal(c) && DrawOk(d) && key != [] && forall i :: 0 <= i < |attempts| ==> DrawOk(attempts[i].draw)
    ensures var b := Wrap(c, key, pin, d);
            var (p, d') := InForce(c, b, pin, d, attempts);
            && Unwrap(c, AfterAttempts(c, b, attempts), p) == Some(key)
            && (Unwrap(c, AfterAttempts(c, b, attempts), other).Some? <==>
                  p == "" || (other != "" && c.kdf(other, d'.salt) == c.kdf(p, d'.salt)))
            && (Unwrap(c, AfterAttempts(c, b, attempts), other).Some? ==> Unwrap(c, AfterAttempts(c, b, attempts), other) == Some(key))
  {
    hide Ideal, Wrap, Unwrap;
    StillWrapsKey(c, key, pin, d, attempts);
    var (p, d') := InForce(c, Wrap(c, key, pin, d), pin, d, attempts);
    UnwrapIff(c, key, p, d', p);
    UnwrapIff(c, key, p, d', other);
  }

  /** The idealisation is consistent. */
  lemma IdealCryptoExists() returns (c: Crypto)
    ensures Ideal(c)
  {
    var zeros: Bytes := seq(32, _ => 0 as Byte);
    c := Crypto(
      (k: Bytes, n: Bytes, p: Bytes) => k + n + p,
      (k: Bytes, n: Bytes, ct: Bytes) =>
        if |k| + |n| <= |ct| && ct[..|k|] == k && ct[|k|..|k| + |n|] == n then Some(ct[|k| + |n|..]) else None,
      (pin: string, salt: Bytes) => zeros,
      (b: Bytes) => b,
      (b: Bytes) => Some(b));
    forall k: Bytes, n: Bytes, p: Bytes ensures c.open(k, n, c.seal(k, n, p)) == Some(p) {
      assert (k + n + p)[..|k|] == k && (k + n + p)[|k|..|k| + |n|] == n && (k + n + p)[|k| + |n|..] == p;
    }
    forall k: Bytes, k': Bytes, n: Bytes, p: Bytes | |k| == |k'| && k != k' ensures c.open(k', n, c.seal(k, n, p)) == None {
      assert (k + n + p)[..|k|] == k;
    }
  }

  // ---- buffers ----

  ghost predicate Wiped(b: array<Byte>)
    reads b
  {
    forall i :: 0 <= i < b.Length ==> b[i] == 0
  }

  /** `zero` and `wipe` */
  method Zero(b: array<Byte>)
    modifies b
    ensures Wiped(b)
    ensures forall o: array<Byte> :: fresh(o) ==> Wiped(o)
  {
    for i := 0 to b.Length
      invariant forall j :: 0 <= j < i ==> b[j] == 0
      invariant forall o: array<Byte> :: fresh(o) ==> Wiped(o)
    {
      b[i] := 0;
    }
  }

  method Buffer(data: Bytes) returns (b: array<Byte>)
    ensures fresh(b) && b[..] == data
    ensures forall o: array<Byte> :: fresh(o) ==> o == b || Wiped(o)
  {
    b := new Byte[|data|](i requires 0 <= i < |data| => data[i]);
  }

  /** The sealed wrapping key: the one buffer a wrap may leave behind, and no secret. */
  predicate IsCiphertext(c: Crypto, key: Bytes, pin: string, d: Draw, held: Bytes) {
    pin != "" && held == Wrap(c, key, pin, d).wrapCt
  }

  /** `Protect`: of all the buffers it makes, on every path, each is zero on return unless it holds the
      sealed wrapping key; and the blob is made from what they held. */
  method Protect(c: Crypto, pkcs8: array<Byte>, pin: string, d: Draw, dpapiOk: bool) returns (r: Option<Blob>)
    requires DrawOk(d)
    ensures forall o: array<Byte> :: fresh(o) ==> Wiped(o) || IsCiphertext(c, pkcs8[..], pin, d, o[..])
    ensures r == if pkcs8.Length > 0 && dpapiOk then Some(Wrap(c, pkcs8[..], pin, d)) else None
  {
    if pkcs8.Length == 0 { return None; }
    var wrapKey := Buffer(d.wrapKey);
    var keyCt := c.seal(wrapKey[..], d.keyNonce, pkcs8[..]);
    var blob := Blob(BLOB_VERSION, None, d.keyNonce, keyCt, [], [], []);
    var toProtect := wrapKey;
    if pin != "" {
      var pk := Buffer(c.kdf(pin, d.salt));
      var wrapCt := Buffer(c.seal(pk[..], d.wrapNonce, wrapKey[..]));
      blob := blob.(salt := Some(d.salt), wrapNonce := d.wrapNonce, wrapCt := wrapCt[..]);
      toProtect := wrapCt;
      if dpapiOk { blob := blob.(dpapi := c.protect(toProtect[..])); }
      Zero(pk);
    } else {
      if dpapiOk { blob := blob.(dpapi := c.protect(toProtect[..])); }
    }
    Zero(wrapKey);
    return if dpapiOk then Some(blob) else None;
  }

  /** `Unprotect`: of all the buffers it makes, on every path, each is zero on return except the one
      returned. */
  method Unprotect(c: Crypto, blob: Blob, pin: string) returns (r: Option<array<Byte>>)
    ensures forall o: array<Byte> :: fresh(o) ==> Wiped(o) || (r.Some? && o == r.value)
    ensures r.Some? <==> Unwrap(c, blob, pin).Some?
    ensures r.Some? ==> fresh(r.value) && Some(r.value[..]) == Unwrap(c, blob, pin)
  {
    if blob.version != BLOB_VERSION { return None; }
    var inner := c.unprotect(blob.dpapi);
    if inner.None? { return None; }
    var unprotected := Buffer(inner.value);
    var plain: Option<Bytes>;
    var wrapKey;
    if blob.salt.Some? {
      if pin == "" {
        Zero(unprotected);
        return None;
      }
      var pk := Buffer(c.kdf(pin, blob.salt.value));
      var wk := c.open(pk[..], blob.wrapNonce, unprotected[..]);
      if wk.None? {
        Zero(pk);
        Zero(unprotected);
        return None;
      }
      wrapKey := Buffer(wk.value);
      plain := c.open(wrapKey[..], blob.keyNonce, blob.keyCt);
      Zero(wrapKey);
      Zero(pk);
      Zero(unprotected);
    } else {
      wrapKey := Buffer(unprotected[..]);
      plain := c.open(wrapKey[..], blob.keyNonce, blob.keyCt);
      Zero(wrapKey);
      Zero(unprotected);
    }
    if plain.None? { return None; }
    var pkcs8 := Buffer(plain.value);
    return Some(pkcs8);
  }

  // ---- the vault ----

  /** The key file and the local state; a save goes through a temporary file, so it lands whole or not. */
  class Vault {
    const c: Crypto
    var file: Option<Blob>
    var hasPin: bool

    constructor (c: Crypto)
      ensures this.c == c && file == None && !hasPin
    {
      this.c, file, hasPin := c, None, false;
    }

    method SaveKey(pkcs8: array<Byte>, pin: string, d: Draw, dpapiOk: bool, writeOk: bool) returns (ok: bool)
      requires DrawOk(d)
      modifies this`file
      ensures ok == (pkcs8.Length > 0 && dpapiOk && writeOk)
      ensures file == if ok then Some(Wrap(c, pkcs8[..], pin, d)) else old(file)
      ensures forall o: array<Byte> :: fresh(o) ==> Wiped(o) || IsCiphertext(c, pkcs8[..], pin, d, o[..])
    {
      var b := Protect(c, pkcs8, pin, d, dpapiOk);
      if b.None? || !writeOk { return false; }
      file := b;
      return true;
    }

    method LoadKey(pin: string) returns (r: Option<array<Byte>>)
      ensures r.Some? <==> file.Some? && Unwrap(c, file.value, pin).Some?
      ensures r.Some? ==> fresh(r.value) && Some(r.value[..]) == Unwrap(c, file.value, pin)
      ensures forall o: array<Byte> :: fresh(o) ==> Wiped(o) || (r.Some? && o == r.value)
    {
      if file.None? { return None; }
      r := Unprotect(c, file.value, pin);
    }

    /** `SetPIN`: the file changes exactly when the old PIN opens it and the save lands; the call
        reports success only if the state file is saved too, so an error can follow a change.  On every
        path no buffer it made holds a secret on return: the private key, the wrapping keys and the PIN
        keys are all zero. */
    method SetPin(oldPin: string, newPin: string, d: Draw, dpapiOk: bool, writeOk: bool, stateOk: bool) returns (ok: bool)
      requires DrawOk(d)
      modifies this
      ensures old(file).None? ==> !ok && file == None
      ensures old(file).Some? ==>
        file == Some(Rewrapped(c, old(file).value, Attempt(oldPin, newPin, d, dpapiOk && writeOk)))
      ensures forall o: array<Byte> :: fresh(o) ==>
        || Wiped(o)
        || (&& old(file).Some? && Unwrap(c, old(file).value, oldPin).Some?
            && IsCiphertext(c, Unwrap(c, old(file).value, oldPin).value, newPin, d, o[..]))
      ensures ok <==> && old(file).Some? && Unwrap(c, old(file).value, oldPin).Some? && Unwrap(c, old(file).value, oldPin).value != []
                      && dpapiOk && writeOk && stateOk
      ensures hasPin == if ok then newPin != "" else old(hasPin)
    {
      hide Wrap, Unwrap;
      var k := LoadKey(oldPin);
      if k.None? { return false; }
      var saved := SaveKey(k.value, newPin, d, dpapiOk, writeOk);
      if !saved {
        Zero(k.value);
        return false;
      }
      if stateOk { hasPin := newPin != ""; }
      Zero(k.value);
      return stateOk;
    }
  }
}
