/** The resumable upload protocol: sessions, append-only scratch files, and the reaper.  Each step
    below is one critical section of the server, so a run of steps is any interleaving of handlers. */
module Uploads {
  import opened Basics

  const TWO_HOURS := 2 * 3600

  /** One session object; it outlives its map entry while a handler still holds it. */
  datatype Session = Session(account: Id, size: nat, updated: Time)

  /** `live` is the key set of the manager's map; `files` is the scratch directory. */
  datatype Manager = Manager(sessions: map<Id, Session>, live: set<Id>, files: map<Id, Bytes>)

  const EMPTY := Manager(map[], {}, map[])

  /** A request body, and where copying it stopped if the reader or the disk failed. */
  datatype Delivery = Delivery(body: Bytes, accepted: nat, failed: bool)

  datatype AppendReply =
    | OffsetMismatch(size: nat) | NoFile(size: nat) | CopyError(size: nat) | TooBig(size: nat) | Appended(size: nat)

  datatype ChunkReply = UnknownSession | Conflict(received: nat) | OverLimit | WriteFailed | Received(received: nat)

  // ---- the operations ----

  function Min(a: int, b: int): (m: int) {
    if a < b then a else b
  }

  /** How many bytes `io.Copy` through a limit of `limit` bytes moves. */
  function CopiedCount(d: Delivery, limit: int): (n: nat)
    ensures n <= |d.body| && (n <= limit || n == 0)
  {
    var offered := if d.failed then Min(d.accepted, |d.body|) else |d.body|;
    if limit <= 0 then 0 else Min(offered, limit)
  }

  /** The copy moves as much as the body, the limit and, if it fails, the point of failure allow. */
  lemma CopiedCountIff(d: Delivery, limit: int, n: nat)
    ensures n == CopiedCount(d, limit) <==>
            && n <= |d.body| && (n <= limit || n == 0) && (d.failed ==> n <= d.accepted)
            && (n == |d.body| || n >= limit || (d.failed && n == d.accepted))
  {
  }

  function Created(m: Manager, id: Id, account: Id, now: Time): (m': Manager) {
    Manager(m.sessions[id := Session(account, 0, now)], m.live + {id}, m.files[id := []])
  }

  predicate Gettable(m: Manager, id: Id, account: Id) {
    id in m.live && id in m.sessions && m.sessions[id].account == account
  }

  function Append(m: Manager, id: Id, offset: int, max: int, d: Delivery, now: Time): (r: (Manager, AppendReply))
    requires id in m.sessions
  {
    var s := m.sessions[id];
    if offset != s.size then (m, OffsetMismatch(s.size))
    else if id !in m.files then (m, NoFile(s.size))
    else
      var n := CopiedCount(d, max - s.size + 1);
      var size := s.size + n;
      var m' := m.(sessions := m.sessions[id := Session(s.account, size, now)],
                   files := m.files[id := m.files[id] + d.body[..n]]);
      (m', if d.failed then CopyError(size) else if size > max then TooBig(size) else Appended(size))
  }

  function Unlink(m: Manager, id: Id): (m': Manager) {
    m.(live := m.live - {id})
  }

  function Remove(m: Manager, id: Id): (m': Manager) {
    m.(files := m.files - {id})
  }

  function Discarded(m: Manager, id: Id): (m': Manager) {
    Remove(Unlink(m, id), id)
  }

  function Stale(m: Manager, now: Time): (ids: set<Id>) {
    set id | id in m.live && id in m.sessions && now - m.sessions[id].updated > TWO_HOURS
  }

  function Reaped(m: Manager, now: Time): (m': Manager) {
    m.(live := m.live - Stale(m, now), files := m.files - Stale(m, now))
  }

  /** A tick of the reaper keeps exactly the live sessions written within the last two hours, with their
      files, and forgets no other file. */
  lemma ReapedIff(m: Manager, now: Time, id: Id)
    requires m.live <= m.sessions.Keys
    ensures id in Reaped(m, now).live <==> id in m.live && now - m.sessions[id].updated <= 2 * 60 * 60
    ensures id in m.live ==> (id in Reaped(m, now).files <==> id in m.files && now - m.sessions[id].updated <= 2 * 60 * 60)
    ensures id !in m.live ==> (id in Reaped(m, now).files <==> id in m.files)
    ensures id in Reaped(m, now).files ==> Reaped(m, now).files[id] == m.files[id]
    ensures Reaped(m, now).sessions == m.sessions
  {
  }

  /** The whole chunk handler, run without interruption. */
  function ChunkHandled(m: Manager, id: Id, account: Id, offset: int, max: int, d: Delivery, now: Time): (r: (Manager, ChunkReply)) {
    if !Gettable(m, id, account) then (m, UnknownSession)
    else
      var (m', reply) := Append(m, id, offset, max, d, now);
      match reply
      case OffsetMismatch(n) => (m', Conflict(n))
      case NoFile(_) => (m', WriteFailed)
      case CopyError(_) => (m', WriteFailed)
      case TooBig(_) => (Discarded(m', id), OverLimit)
      case Appended(n) => (m', Received(n))
  }

  /** What a chunk request is answered, and what is in the files then: unknown for anyone but the owner of a
      live session; a conflict for a wrong offset; and otherwise what was copied is appended, the session
      being kept exactly when the copy failed or ended within the cap. */
  lemma ChunkOutcomeIff(m: Manager, id: Id, account: Id, offset: int, max: int, d: Delivery, now: Time)
    requires m.live <= m.files.Keys <= m.sessions.Keys
    ensures var (m', reply) := ChunkHandled(m, id, account, offset, max, d, now);
            if !(id in m.live && m.sessions[id].account == account) then reply == UnknownSession && m' == m
            else if offset != m.sessions[id].size then reply == Conflict(m.sessions[id].size) && m' == m
            else
              var n := CopiedCount(d, max - m.sessions[id].size + 1);
              var size := m.sessions[id].size + n;
              && m'.sessions == m.sessions[id := Session(account, size, now)]
              && (reply == WriteFailed <==> d.failed)
              && (reply == Received(size) <==> !d.failed && size <= max)
              && (reply == OverLimit <==> !d.failed && size > max)
              && m'.live == (if reply == OverLimit then m.live - {id} else m.live)
              && m'.files == (if reply == OverLimit then m.files - {id} else m.files[id := m.files[id] + d.body[..n]])
  {
    hide CopiedCount;
  }

  // ---- interleavings ----

  type ThreadId = nat

  /** A manager together with the handlers caught between deciding to discard a session, deleting
      its map entry, and deleting its file. */
  datatype Protocol = Protocol(m: Manager, unlinking: map<ThreadId, Id>, removing: map<ThreadId, Id>)

  datatype Step =
    | CreateStep(id: Id, account: Id, now: Time)
    | AppendStep(thread: ThreadId, id: Id, offset: int, delivery: Delivery, now: Time)
    | TakeStep(thread: ThreadId, id: Id)
    | UnlinkStep(thread: ThreadId)
    | RemoveStep(thread: ThreadId)
    | ReapStep(now: Time)

  /** Ids are fresh; a handler only touches a session it was handed. */
  predicate Legal(p: Protocol, s: Step) {
    match s
    case CreateStep(id, _, _) => id !in p.m.sessions
    case AppendStep(t, id, _, _, _) => id in p.m.sessions && t !in p.unlinking && t !in p.removing
    case TakeStep(t, id) => id in p.m.sessions && t !in p.unlinking && t !in p.removing
    case UnlinkStep(t) => t in p.unlinking && t !in p.removing
    case RemoveStep(t) => t in p.removing
    case ReapStep(_) => true
  }

  function Next(max: int, p: Protocol, s: Step): (p': Protocol)
    requires Legal(p, s)
  {
    match s
    case CreateStep(id, account, now) => p.(m := Created(p.m, id, account, now))
    case AppendStep(t, id, offset, d, now) =>
      var (m', reply) := Append(p.m, id, offset, max, d, now);
      p.(m := m', unlinking := if reply.TooBig? then p.unlinking[t := id] else p.unlinking)
    case TakeStep(t, id) => p.(unlinking := p.unlinking[t := id])
    case UnlinkStep(t) =>
      Protocol(Unlink(p.m, p.unlinking[t]), p.unlinking - {t}, p.removing[t := p.unlinking[t]])
    case RemoveStep(t) => p.(m := Remove(p.m, p.removing[t]), removing := p.removing - {t})
    case ReapStep(now) => p.(m := Reaped(p.m, now))
  }

  /** The files and the recorded sizes agree, and nothing grows past one byte over the cap. */
  predicate SessionsOk(max: int, m: Manager) {
    && m.live <= m.files.Keys <= m.sessions.Keys
    && (forall id :: id in m.files ==> |m.files[id]| == m.sessions[id].size)
    && (forall id :: id in m.sessions ==> m.sessions[id].size <= max + 1 || m.sessions[id].size == 0)
  }

  /** Handlers hold sessions that exist, and a file is only deleted after its map entry is. */
  predicate HandlersOk(p: Protocol) {
    && (forall t :: t in p.unlinking ==> p.unlinking[t] in p.m.sessions)
    && (forall t :: t in p.removing ==> p.removing[t] in p.m.sessions && p.removing[t] !in p.m.live)
  }

  predicate ProtocolOk(max: int, p: Protocol) {
    SessionsOk(max, p.m) && HandlersOk(p)
  }

  /** A live session over the cap is about to be discarded by some handler. */
  predicate OverrunsPending(max: int, p: Protocol) {
    forall id :: id in p.m.live && id in p.m.sessions && max < p.m.sessions[id].size && p.m.sessions[id].size > 0
      ==> id in p.unlinking.Values
  }

  /** The copy failed on the very byte that crosses the cap: the handler then reports a write error
      and leaves the session alone. */
  predicate FailsOverCap(max: int, m: Manager, id: Id, offset: int, d: Delivery)
  {
    && id in m.sessions && id in m.files && offset == m.sessions[id].size
    && d.failed && CopiedCount(d, max - m.sessions[id].size + 1) > 0
    && m.sessions[id].size + CopiedCount(d, max - m.sessions[id].size + 1) > max
  }

  /** The writer sends a slice of the document at the offset it names. */
  predicate HonestStep(doc: Id -> Bytes, s: Step) {
    s.AppendStep? ==>
      && 0 <= s.offset
      && s.offset + |s.delivery.body| <= |doc(s.id)|
      && s.delivery.body == doc(s.id)[s.offset..s.offset + |s.delivery.body|]
  }

  predicate Prefixes(doc: Id -> Bytes, m: Manager) {
    forall id :: id in m.files ==> m.files[id] <= doc(id)
  }

  lemma StepKeepsSessions(max: int, p: Protocol, s: Step)
    requires Legal(p, s) && ProtocolOk(max, p)
    ensures ProtocolOk(max, Next(max, p, s))
  {
  }

  lemma StepKeepsPrefixes(max: int, doc: Id -> Bytes, p: Protocol, s: Step)
    requires Legal(p, s) && ProtocolOk(max, p) && Prefixes(doc, p.m) && HonestStep(doc, s)
    ensures Prefixes(doc, Next(max, p, s).m)
  {
    if s.AppendStep? && s.offset == p.m.sessions[s.id].size && s.id in p.m.files {
      var n := CopiedCount(s.delivery, max - s.offset + 1);
      var f := p.m.files[s.id];
      assert f == doc(s.id)[..s.offset];
      assert f + s.delivery.body[..n] == doc(s.id)[..s.offset + n];
    }
  }

  lemma StepKeepsPending(max: int, p: Protocol, s: Step)
    requires Legal(p, s) && ProtocolOk(max, p) && OverrunsPending(max, p)
    requires !(s.AppendStep? && FailsOverCap(max, p.m, s.id, s.offset, s.delivery))
    ensures OverrunsPending(max, Next(max, p, s))
  {
    var p' := Next(max, p, s);
    forall id | id in p'.m.live && id in p'.m.sessions && max < p'.m.sessions[id].size && p'.m.sessions[id].size > 0
      ensures id in p'.unlinking.Values
    {
      match s
      case AppendStep(t, a, offset, d, _) =>
        if id == a && offset == p.m.sessions[a].size && p'.unlinking != p.unlinking {
          assert p'.unlinking[t] == a;
        } else {
          var u :| u in p.unlinking && p.unlinking[u] == id;
          assert p'.unlinking[u] == id;
        }
      case UnlinkStep(t) =>
        var u :| u in p.unlinking && p.unlinking[u] == id;
        assert u != t && p'.unlinking[u] == id;
      case TakeStep(t, a) =>
        var u :| u in p.unlinking && p.unlinking[u] == id;
        assert p'.unlinking[u] == id;
      case _ =>
    }
  }

  /** A handler's steps, taken one after the other, are the operation: creating, reaping, handling a chunk
      with its discard, and discarding after use. */
  lemma StepsAreOperations(max: int, p: Protocol, t: ThreadId, id: Id, account: Id, offset: int, d: Delivery, now: Time)
    requires t !in p.unlinking && t !in p.removing
    ensures id !in p.m.sessions ==> Next(max, p, CreateStep(id, account, now)).m == Created(p.m, id, account, now)
    ensures Next(max, p, ReapStep(now)).m == Reaped(p.m, now)
    ensures id in p.m.sessions ==>
              var p1 := Next(max, p, TakeStep(t, id));
              Legal(p1, UnlinkStep(t)) &&
              var p2 := Next(max, p1, UnlinkStep(t));
              Legal(p2, RemoveStep(t)) && Next(max, p2, RemoveStep(t)) == p.(m := Discarded(p.m, id))
    ensures Gettable(p.m, id, account) ==>
              var p1 := Next(max, p, AppendStep(t, id, offset, d, now));
              var (m', reply) := ChunkHandled(p.m, id, account, offset, max, d, now);
              && (reply != OverLimit ==> p1 == p.(m := m'))
              && (reply == OverLimit ==>
                    Legal(p1, UnlinkStep(t)) &&
                    var p2 := Next(max, p1, UnlinkStep(t));
                    Legal(p2, RemoveStep(t)) && Next(max, p2, RemoveStep(t)) == p.(m := m'))
  {
    assert p.unlinking[t := id] - {t} == p.unlinking && p.removing[t := id] - {t} == p.removing;
  }

  /** Discarding forgets the session and its file, and no other. */
  lemma DiscardedIff(m: Manager, id: Id, other: Id)
    ensures other in Discarded(m, id).live <==> other in m.live && other != id
    ensures other in Discarded(m, id).files <==> other in m.files && other != id
    ensures other in Discarded(m, id).files ==> Discarded(m, id).files[other] == m.files[other]
  {
  }

  // ---- whole runs ----

  predicate LegalRun(max: int, p: Protocol, run: seq<Step>)
    decreases |run|
  {
    run == [] || (Legal(p, run[0]) && LegalRun(max, Next(max, p, run[0]), run[1..]))
  }

  function After(max: int, p: Protocol, run: seq<Step>): (p': Protocol)
    requires LegalRun(max, p, run)
    decreases |run|
  {
    if run == [] then p else After(max, Next(max, p, run[0]), run[1..])
  }

  predicate NoFailureOverCap(max: int, p: Protocol, run: seq<Step>)
    requires LegalRun(max, p, run)
    decreases |run|
  {
    run == [] ||
    (&& !(run[0].AppendStep? && FailsOverCap(max, p.m, run[0].id, run[0].offset, run[0].delivery))
     && NoFailureOverCap(max, Next(max, p, run[0]), run[1..]))
  }

  const START := Protocol(EMPTY, map[], map[])

  lemma {:induction false} RunKeeps(max: int, doc: Id -> Bytes, p: Protocol, run: seq<Step>)
    requires LegalRun(max, p, run) && ProtocolOk(max, p)
    ensures ProtocolOk(max, After(max, p, run))
    ensures Prefixes(doc, p.m) && (forall i :: 0 <= i < |run| ==> HonestStep(doc, run[i]))
            ==> Prefixes(doc, After(max, p, run).m)
    ensures OverrunsPending(max, p) && NoFailureOverCap(max, p, run) ==> OverrunsPending(max, After(max, p, run))
    decreases |run|
  {
    if run != [] {
      var p' := Next(max, p, run[0]);
      StepKeepsSessions(max, p, run[0]);
      if Prefixes(doc, p.m) && HonestStep(doc, run[0]) { StepKeepsPrefixes(max, doc, p, run[0]); }
      if OverrunsPending(max, p) && NoFailureOverCap(max, p, run) { StepKeepsPending(max, p, run[0]); }
      RunKeeps(max, doc, p', run[1..]);
      if forall i :: 0 <= i < |run| ==> HonestStep(doc, run[i]) {
        assert forall i :: 0 <= i < |run[1..]| ==> run[1..][i] == run[i + 1];
      }
    }
  }

  /** Under every interleaving of duplicates, retries, partial deliveries, write errors and reaping:
      a live session's file exists, its length is the recorded size, it is at most one byte over the
      cap, it is a prefix of the document all writers are sending, and once no handler is left
      discarding it, it is within the cap (unless a copy failed on the byte over the cap). */
  lemma LiveSessionIsPrefix(max: nat, doc: Id -> Bytes, run: seq<Step>, id: Id)
    requires LegalRun(max, START, run)
    requires id in After(max, START, run).m.live
    ensures var p := After(max, START, run);
            && id in p.m.files && id in p.m.sessions
            && |p.m.files[id]| == p.m.sessions[id].size <= max + 1
            && ((forall i :: 0 <= i < |run| ==> HonestStep(doc, run[i])) ==> p.m.files[id] <= doc(id))
            && (NoFailureOverCap(max, START, run) && id !in p.unlinking.Values ==> p.m.sessions[id].size <= max)
  {
    RunKeeps(max, doc, START, run);
  }

  // ---- the handler run without interruption ----

  /** Every session is within the cap. */
  predicate WithinCap(max: int, m: Manager) {
    forall id :: id in m.live && id in m.sessions ==> m.sessions[id].size <= max || m.sessions[id].size == 0
  }

  lemma ChunkKeepsSessions(max: int, m: Manager, id: Id, account: Id, offset: int, d: Delivery, now: Time)
    requires SessionsOk(max, m)
    ensures SessionsOk(max, ChunkHandled(m, id, account, offset, max, d, now).0)
  {
  }

  /** One handler leaves every live session within the cap exactly when its copy does not fail on
      the byte over the cap. */
  lemma ChunkWithinCapIff(max: int, m: Manager, id: Id, account: Id, offset: int, d: Delivery, now: Time)
    requires SessionsOk(max, m) && WithinCap(max, m)
    ensures WithinCap(max, ChunkHandled(m, id, account, offset, max, d, now).0)
            <==> !(Gettable(m, id, account) && FailsOverCap(max, m, id, offset, d))
  {
    var m' := ChunkHandled(m, id, account, offset, max, d, now).0;
    if Gettable(m, id, account) && FailsOverCap(max, m, id, offset, d) {
      assert id in m'.live && m'.sessions[id].size > max;
    }
  }

  /** Such a delivery exists for every cap: one more byte than it, failing after the last. */
  lemma OverCapSessionSurvives(max: nat, id: Id, account: Id, now: Time) returns (m: Manager, d: Delivery)
    ensures SessionsOk(max, m) && WithinCap(max, m)
    ensures !WithinCap(max, ChunkHandled(m, id, account, 0, max, d, now).0)
  {
    m, d := Created(EMPTY, id, account, now), Delivery(seq(max + 1, _ => 0), max + 1, true);
    ChunkWithinCapIff(max, m, id, account, 0, d, now);
  }

  // ---- the manager itself ----

  class UploadManager {
    var sessions: map<Id, Session>
    var live: set<Id>
    var files: map<Id, Bytes>

    ghost function View(): (m: Manager)
      reads this
    {
      Manager(sessions, live, files)
    }

    constructor ()
      ensures View() == EMPTY
    {
      sessions, live, files := map[], {}, map[];
    }

    method Create(id: Id, account: Id, now: Time)
      modifies this
      ensures View() == Created(old(View()), id, account, now)
    {
      files := files[id := []];
      sessions := sessions[id := Session(account, 0, now)];
      live := live + {id};
    }

    method Get(id: Id, account: Id) returns (found: bool)
      ensures found == Gettable(View(), id, account)
    {
      found := id in live && id in sessions && sessions[id].account == account;
    }

    method AppendChunk(id: Id, offset: int, max: int, d: Delivery, now: Time) returns (reply: AppendReply)
      requires id in sessions
      modifies this
      ensures (View(), reply) == Append(old(View()), id, offset, max, d, now)
    {
      var s := sessions[id];
      if offset != s.size { return OffsetMismatch(s.size); }
      if id !in files { return NoFile(s.size); }
      var n := CopiedCount(d, max - s.size + 1);
      files := files[id := files[id] + d.body[..n]];
      s := Session(s.account, s.size + n, now);
      sessions := sessions[id := s];
      if d.failed { return CopyError(s.size); }
      if s.size > max { return TooBig(s.size); }
      return Appended(s.size);
    }

    method Discard(id: Id)
      modifies this
      ensures View() == Discarded(old(View()), id)
    {
      live := live - {id};
      files := files - {id};
    }

    /** One tick of the reaper: walk the map, drop what has been idle for two hours. */
    method Reap(now: Time)
      modifies this
      ensures View() == Reaped(old(View()), now)
    {
      var rest := live;
      ghost var start := View();
      while rest != {}
        invariant rest <= start.live
        invariant sessions == start.sessions
        invariant live == start.live - (Stale(start, now) - rest)
        invariant files == start.files - (Stale(start, now) - rest)
        decreases rest
      {
        var id :| id in rest;
        rest := rest - {id};
        if id in sessions && now - sessions[id].updated > TWO_HOURS {
          files := files - {id};
          live := live - {id};
        }
      }
    }

    /** The chunk endpoint. */
    method HandleChunk(id: Id, account: Id, offset: int, max: int, d: Delivery, now: Time) returns (reply: ChunkReply)
      modifies this
      ensures (View(), reply) == ChunkHandled(old(View()), id, account, offset, max, d, now)
    {
      var found := Get(id, account);
      if !found { return UnknownSession; }
      var r := AppendChunk(id, offset, max, d, now);
      match r {
        case OffsetMismatch(n) => reply := Conflict(n);
        case NoFile(_) => reply := WriteFailed;
        case CopyError(_) => reply := WriteFailed;
        case TooBig(_) => Discard(id); reply := OverLimit;
        case Appended(n) => reply := Received(n);
      }
    }
  }
}
