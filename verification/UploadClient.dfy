/** The two client loops that push a document through the resumable upload. */
module UploadClient {
  import opened Basics
  import opened Uploads

  const CHUNK := 8 * 1024 * 1024

  /** What happens to one PATCH request: the reaper may run first, the exchange may be lost, the
      server's copy may stop after `accepted` bytes, the reply may be unreadable. */
  datatype Exchange = Exchange(reap: Option<Time>, lost: bool, garbled: bool, accepted: nat, failed: bool, now: Time)

  predicate Smooth(x: Exchange) {
    x.reap.None? && !x.lost && !x.garbled && !x.failed
  }

  datatype UploadResult = Uploaded | UploadFailed

  /** One PATCH: the number of bytes the server says it has, None for an error. */
  method Patch(um: UploadManager, id: Id, account: Id, max: int, offset: int, body: Bytes, x: Exchange)
      returns (r: Option<nat>)
    modifies um
    ensures var m := if x.reap.Some? then Reaped(old(um.View()), x.reap.value) else old(um.View());
            var (m', reply) := ChunkHandled(m, id, account, offset, max, Delivery(body, x.accepted, x.failed), x.now);
            um.View() == m' && r == if !x.lost && reply.Received? then Some(if x.garbled then 0 else reply.received) else None
  {
    if x.reap.Some? { um.Reap(x.reap.value); }
    var reply := um.HandleChunk(id, account, offset, max, Delivery(body, x.accepted, x.failed), x.now);
    if x.lost || !reply.Received? { return None; }
    return Some(if x.garbled then 0 else reply.received);
  }

  /** The session belongs to the client and, while its file exists, holds the first `off` bytes. */
  ghost predicate Holds(m: Manager, max: int, id: Id, account: Id, data: Bytes, off: nat) {
    && SessionsOk(max, m)
    && Gettable(m, id, account) && id in m.files
    && off <= |data| && m.files[id] == data[..off]
    && (off <= max || off == 0)
  }

  /** One PATCH of the next chunk: on a reply past `off`, the server holds exactly `end` bytes; a
      smooth exchange within the cap always gives that reply. */
  lemma PatchAdvances(m: Manager, max: int, id: Id, account: Id, data: Bytes, off: nat, end: nat, d: Delivery, now: Time)
    requires Holds(m, max, id, account, data, off) && off < end <= |data| && d.body == data[off..end]
    ensures var (m', reply) := ChunkHandled(m, id, account, off, max, d, now);
            && (reply.Received? ==> reply.received == end && Holds(m', max, id, account, data, end))
            && (!d.failed ==> (reply.Received? <==> end <= max))
            && (id in m'.files ==> m'.files[id] <= data)
  {
    var n := CopiedCount(d, max - off + 1);
    var m' := ChunkHandled(m, id, account, off, max, d, now).0;
    assert data[..off] + data[off..end][..n] == data[..off + n];
    ChunkKeepsSessions(max, m, id, account, off, d, now);
  }

  lemma ReapOnlyForgets(m: Manager, max: int, id: Id, account: Id, data: Bytes, off: nat, now: Time)
    requires Holds(m, max, id, account, data, off)
    ensures var m' := Reaped(m, now); Holds(m', max, id, account, data, off) || (!Gettable(m', id, account) && id !in m'.files)
  {
  }

  /** Sending the chunk `data[off..end]`: the part the two loops share. */
  method SendChunk(um: UploadManager, id: Id, account: Id, data: Bytes, max: int, off: nat, end: nat, x: Exchange)
      returns (got: Option<nat>)
    requires off < end <= |data| && Holds(um.View(), max, id, account, data, off)
    modifies um
    ensures got.Some? && got.value > off ==> got.value == end && Holds(um.View(), max, id, account, data, end)
    ensures Smooth(x) ==> ((got.Some? && got.value > off) <==> end <= max)
    ensures id in um.files ==> um.files[id] <= data
  {
    if x.reap.Some? { ReapOnlyForgets(um.View(), max, id, account, data, off, x.reap.value); }
    ghost var m := if x.reap.Some? then Reaped(um.View(), x.reap.value) else um.View();
    if Gettable(m, id, account) {
      PatchAdvances(m, max, id, account, data, off, end, Delivery(data[off..end], x.accepted, x.failed), x.now);
    }
    got := Patch(um, id, account, max, off, data[off..end], x);
  }

  /** The desktop client's `uploadBytes`. */
  method UploadBytesGo(um: UploadManager, id: Id, account: Id, data: Bytes, max: int, created: bool, now: Time, net: nat -> Exchange)
      returns (r: UploadResult)
    requires id !in um.sessions && SessionsOk(max, um.View())
    modifies um
    // success means the server holds the document, whatever the network did
    ensures r.Uploaded? ==> Gettable(um.View(), id, account) && id in um.files && um.files[id] == data
    ensures r.Uploaded? ==> |data| <= max || data == []
    // failure still leaves at most a prefix behind
    ensures id in um.files ==> um.files[id] <= data
    // without faults the upload succeeds exactly when the document fits
    ensures created && (forall i: nat :: Smooth(net(i))) ==> (r.Uploaded? <==> |data| <= max || data == [])
  {
    if !created { return UploadFailed; }
    um.Create(id, account, now);
    var off, request := 0, 0;
    while off < |data|
      invariant 0 <= off <= |data|
      invariant Holds(um.View(), max, id, account, data, off)
      decreases |data| - off
    {
      var end := off + CHUNK;
      if end > |data| { end := |data|; }
      var got := SendChunk(um, id, account, data, max, off, end, net(request));
      request := request + 1;
      if got.None? { return UploadFailed; }
      if got.value <= off { return UploadFailed; }
      off := got.value;
    }
    assert data[..|data|] == data;
    return Uploaded;
  }

  function Wrap32(x: int): (y: int)
    ensures -0x8000_0000 <= y < 0x8000_0000
    ensures -0x8000_0000 <= x < 0x8000_0000 ==> y == x
  {
    (x + 0x8000_0000) % 0x1_0000_0000 - 0x8000_0000
  }

  /** 2^31 - 2^23: from this start, `off + 8 MiB` no longer fits a 32-bit Int. */
  const ANDROID_LIMIT := 255 * CHUNK

  /** The Android client's `uploadBytes`, with its 32-bit offsets.  An array has fewer than 2^31 bytes. */
  method UploadBytesKotlin(um: UploadManager, id: Id, account: Id, data: Bytes, max: int, created: bool, now: Time, net: nat -> Exchange)
      returns (r: UploadResult)
    requires |data| < 0x8000_0000
    requires id !in um.sessions && SessionsOk(max, um.View())
    modifies um
    ensures r.Uploaded? ==> Gettable(um.View(), id, account) && id in um.files && um.files[id] == data
    ensures r.Uploaded? ==> (|data| <= max || data == []) && |data| <= ANDROID_LIMIT
    ensures id in um.files ==> um.files[id] <= data
    // without faults the upload succeeds exactly when the document fits and no offset overflows
    ensures created && (forall i: nat :: Smooth(net(i))) ==>
      (r.Uploaded? <==> (|data| <= max || data == []) && |data| <= ANDROID_LIMIT)
  {
    if !created { return UploadFailed; }
    um.Create(id, account, now);
    var off, request := 0, 0;
    while off < |data|
      invariant 0 <= off <= |data|
      invariant off == request * CHUNK || off == |data|
      invariant 0 <= request <= 255 && (off == |data| ==> off <= 255 * CHUNK)
      invariant Holds(um.View(), max, id, account, data, off)
      decreases |data| - off
    {
      var end := Wrap32(off + CHUNK);
      if |data| < end { end := |data|; }
      // copyOfRange throws when the range runs backwards
      if end < off { return UploadFailed; }
      var got := SendChunk(um, id, account, data, max, off, end, net(request));
      request := request + 1;
      if got.None? { return UploadFailed; }
      if got.value <= off { return UploadFailed; }
      off := got.value;
    }
    assert data[..|data|] == data;
    return Uploaded;
  }
}
