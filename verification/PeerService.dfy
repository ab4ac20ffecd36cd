/**
 The peer list of the VPN service and its two shadows: the stored list and the
 WireGuard backend.  Each operation is specified by an `Effect`: its result, the list it
 leaves in memory and the sequence of durable states it passes through.
 */
module PeerService {
  import opened Wrappers
  import opened AtomicFiles
  import opened AddressPool

  type Key = string

  /** The address text of a stored peer, parsed. */
  datatype Address = Addr(a: nat) | Addr6(a6: nat) | Garbled

  datatype Peer = Peer(
    id: string, name: string, publicKey: Key, address: Address,
    createdAt: nat, expiresAt: Option<nat>, owner: string, ownerName: string)

  /** ttl 0 means that the peer never expires, maxPerOwner 0 that there is no limit. */
  datatype CreateOptions = CreateOptions(owner: string, ownerName: string, ttl: int, maxPerOwner: int)

  datatype KeyInput = Generated(pair: Option<Key>) | Supplied(key: Key, wellFormed: bool)

  datatype CreateRequest = CreateRequest(name: string, key: KeyInput, opt: CreateOptions)

  /** What the world answers during one `Create`. */
  datatype CreateWorld = CreateWorld(now: nat, id: Option<string>, addOk: bool, save: Outcome, rollbackOk: bool)

  datatype Error =
    | Invalid | KeyGeneration | DuplicateKey | LimitReached | Exhausted | Random
    | BackendFailed | SaveFailed | NotFound | ReadFailed | BadJson | BadAddress

  /** The four questions by which peers are removed. */
  datatype Match =
    | ById(id: string) | ByIdAndOwner(id: string, owner: string) | ByOwner(owner: string) | Expired(now: nat)

  predicate Matches(m: Match, p: Peer) {
    match m
    case ById(id) => p.id == id
    case ByIdAndOwner(id, owner) => p.id == id && p.owner == owner
    case ByOwner(owner) => p.owner == owner
    case Expired(now) => p.expiresAt.Some? && p.expiresAt.value <= now
  }

  /** What survives the death of the process. */
  datatype Durable = Durable(disk: Disk<seq<Peer>>, backend: map<Key, Address>)

  datatype State = State(peers: seq<Peer>, durable: Durable)

  /** `trace` starts with the durable state before the operation. */
  datatype Effect<R> = Effect(result: R, peers: seq<Peer>, trace: seq<Durable>)

  function After<R>(e: Effect<R>): State
    requires e.trace != []
  {
    State(e.peers, Last(e.trace))
  }

  function WithBackend(disks: seq<Disk<seq<Peer>>>, backend: map<Key, Address>): (r: seq<Durable>)
    ensures |r| == |disks|
  {
    seq(|disks|, i requires 0 <= i < |disks| => Durable(disks[i], backend))
  }

  // ---------------------------------------------------------------- names

  predicate IsSpace(c: char) {
    || '\t' <= c <= '\r' || c == ' ' || c as int == 0x85 || c as int == 0xa0 || c as int == 0x1680
    || 0x2000 <= c as int <= 0x200a || c as int == 0x2028 || c as int == 0x2029 || c as int == 0x202f
    || c as int == 0x205f || c as int == 0x3000
  }

  predicate IsControl(c: char) {
    c as int < 0x20 || 0x7f <= c as int < 0xa0
  }

  function TrimSpace(s: string): (r: string)
    ensures r != [] ==> !IsSpace(r[0]) && !IsSpace(r[|r| - 1])
  {
    if s == [] then s
    else if IsSpace(s[0]) then TrimSpace(s[1..])
    else if IsSpace(s[|s| - 1]) then TrimSpace(s[..|s| - 1])
    else s
  }

  predicate ValidName(n: string) {
    1 <= |n| <= 64 && forall c <- n :: !IsControl(c)
  }

  // ---------------------------------------------------------------- create

  function Addresses(peers: seq<Peer>): set<nat> {
    set p | p in peers && p.address.Addr? :: p.address.a
  }

  function OwnedCount(peers: seq<Peer>, owner: string): (n: nat)
    ensures n <= |peers|
  {
    if peers == [] then 0
    else OwnedCount(peers[..|peers| - 1], owner) + (if Last(peers).owner == owner then 1 else 0)
  }

  /** The decision taken under the lock. */
  function Admit(pool: Pool, peers: seq<Peer>, key: Key, opt: CreateOptions): Result<nat, Error>
    requires pool.prefix.bits <= pool.prefix.width
  {
    if exists p <- peers :: p.publicKey == key then Err(DuplicateKey)
    else if opt.maxPerOwner > 0 && (if opt.owner == "" then 0 else OwnedCount(peers, opt.owner)) >= opt.maxPerOwner then
      Err(LimitReached)
    else
      match pool.Lowest(Addresses(peers))
      case None => Err(Exhausted)
      case Some(a) => Ok(a)
  }

  function ResolveKey(k: KeyInput): Result<Key, Error> {
    match k
    case Generated(None) => Err(KeyGeneration)
    case Generated(Some(pub)) => Ok(pub)
    case Supplied(key, wellFormed) => if wellFormed then Ok(key) else Err(Invalid)
  }

  function NewPeer(req: CreateRequest, key: Key, a: nat, w: CreateWorld): Peer
    requires w.id.Some?
  {
    var now := w.now - w.now % SECOND;
    Peer(w.id.value, TrimSpace(req.name), key, Addr(a), now,
         if req.opt.ttl > 0 then Some(now + req.opt.ttl) else None,
         req.opt.owner, req.opt.ownerName)
  }

  function CreateEffect(pool: Pool, st: State, req: CreateRequest, w: CreateWorld): (e: Effect<Result<Peer, Error>>)
    requires pool.prefix.bits <= pool.prefix.width
    ensures e.trace != [] && e.trace[0] == st.durable
  {
    var d := st.durable;
    var refuse := (x: Error) => Effect(Err(x), st.peers, [d]);
    if !ValidName(TrimSpace(req.name)) then refuse(Invalid) else
    match ResolveKey(req.key)
    case Err(x) => refuse(x)
    case Ok(key) =>
      match Admit(pool, st.peers, key, req.opt)
      case Err(x) => refuse(x)
      case Ok(a) =>
        if w.id.None? then refuse(Random)
        else if !w.addOk then refuse(BackendFailed)
        else
          var peer := NewPeer(req, key, a, w);
          var added := d.backend[key := Addr(a)];
          var saved := [d] + WithBackend(WriteTrace(d.disk, st.peers + [peer], w.save), added);
          if w.save.Done? then Effect(Ok(peer), st.peers + [peer], saved)
          else if !w.rollbackOk then Effect(Err(SaveFailed), st.peers, saved)
          else Effect(Err(SaveFailed), st.peers, saved + [Last(saved).(backend := added - {key})])
  }

  // ---------------------------------------------------------------- remove

  /** Position `i` is removed when it matches and the backend does not fail there. */
  predicate Gone(peers: seq<Peer>, m: Match, fails: set<nat>, i: nat)
    requires i < |peers|
  {
    Matches(m, peers[i]) && i !in fails
  }

  /** The first `n` peers without the removed ones, in order. */
  function Kept(peers: seq<Peer>, m: Match, fails: set<nat>, n: nat): (kept: seq<Peer>)
    requires n <= |peers|
    ensures |kept| <= n
  {
    if n == 0 then []
    else if Gone(peers, m, fails, n - 1) then Kept(peers, m, fails, n - 1)
    else Kept(peers, m, fails, n - 1) + [peers[n - 1]]
  }

  /** The keys removed from the backend after `n` rounds of the loop. */
  function GoneKeys(peers: seq<Peer>, m: Match, fails: set<nat>, n: nat): set<Key>
    requires n <= |peers|
  {
    set i: nat | i < n && Gone(peers, m, fails, i) :: peers[i].publicKey
  }

  predicate SomeFail(peers: seq<Peer>, m: Match, fails: set<nat>, n: nat)
    requires n <= |peers|
  {
    exists i: nat :: i < n && Matches(m, peers[i]) && i in fails
  }

  /** One round of the loop. */
  lemma SweepStep(peers: seq<Peer>, m: Match, fails: set<nat>, i: nat)
    requires i < |peers|
    ensures GoneKeys(peers, m, fails, i + 1) ==
            GoneKeys(peers, m, fails, i) + if Gone(peers, m, fails, i) then {peers[i].publicKey} else {}
    ensures SomeFail(peers, m, fails, i + 1) <==> SomeFail(peers, m, fails, i) || (Matches(m, peers[i]) && i in fails)
  {
  }

  /** Removed count, and whether some peer could not be removed (the error returned beside it). */
  datatype Removal = Removal(removed: nat, error: Option<Error>)

  function BackendAt(st: State, m: Match, fails: set<nat>, n: nat): map<Key, Address>
    requires n <= |st.peers|
  {
    st.durable.backend - GoneKeys(st.peers, m, fails, n)
  }

  function Sweep(st: State, m: Match, fails: set<nat>): (trace: seq<Durable>)
    ensures |trace| == |st.peers| + 1
    ensures trace[0] == st.durable
  {
    seq(|st.peers| + 1, n requires 0 <= n <= |st.peers| => st.durable.(backend := BackendAt(st, m, fails, n)))
  }

  /** Each round of the loop removes at most one key from the backend. */
  lemma BackendAtNext(st: State, m: Match, fails: set<nat>, i: nat)
    requires i < |st.peers|
    ensures BackendAt(st, m, fails, i + 1) ==
            if Gone(st.peers, m, fails, i) then BackendAt(st, m, fails, i) - {st.peers[i].publicKey}
            else BackendAt(st, m, fails, i)
  {
    SweepStep(st.peers, m, fails, i);
    var b := st.durable.backend;
    var g := GoneKeys(st.peers, m, fails, i);
    var k := if Gone(st.peers, m, fails, i) then {st.peers[i].publicKey} else {};
    assert b - (g + k) == b - g - k;
  }

  /** The variables of the loop of a removal. */
  datatype LoopState = LoopState(
    kept: seq<Peer>, firstErr: Option<Error>, backend: map<Key, Address>, trace: seq<Durable>)

  /** The loop of a removal, round by round. */
  function Loop(st: State, m: Match, fails: set<nat>, n: nat): LoopState
    requires n <= |st.peers|
  {
    if n == 0 then LoopState([], None, st.durable.backend, [st.durable])
    else
      var before, p := Loop(st, m, fails, n - 1), st.peers[n - 1];
      var gone, failed := Matches(m, p) && n - 1 !in fails, Matches(m, p) && n - 1 in fails;
      var backend := if gone then before.backend - {p.publicKey} else before.backend;
      LoopState(
        if gone then before.kept else before.kept + [p],
        if failed && before.firstErr.None? then Some(BackendFailed) else before.firstErr,
        backend,
        before.trace + [st.durable.(backend := backend)])
  }

  lemma {:induction false} LoopKeeps(st: State, m: Match, fails: set<nat>, n: nat)
    requires n <= |st.peers|
    ensures Loop(st, m, fails, n).kept == Kept(st.peers, m, fails, n)
  {
    if n > 0 {
      LoopKeeps(st, m, fails, n - 1);
    }
  }

  lemma {:induction false} LoopErrs(st: State, m: Match, fails: set<nat>, n: nat)
    requires n <= |st.peers|
    ensures Loop(st, m, fails, n).firstErr == if SomeFail(st.peers, m, fails, n) then Some(BackendFailed) else None
  {
    if n > 0 {
      LoopErrs(st, m, fails, n - 1);
      SweepStep(st.peers, m, fails, n - 1);
    }
  }

  lemma {:induction false} LoopBackend(st: State, m: Match, fails: set<nat>, n: nat)
    requires n <= |st.peers|
    ensures Loop(st, m, fails, n).backend == BackendAt(st, m, fails, n)
  {
    if n == 0 {
      assert st.durable.backend - {} == st.durable.backend;
    } else {
      LoopBackend(st, m, fails, n - 1);
      BackendAtNext(st, m, fails, n - 1);
    }
  }

  lemma {:induction false} LoopSweeps(st: State, m: Match, fails: set<nat>, n: nat)
    requires n <= |st.peers|
    ensures Loop(st, m, fails, n).trace == Sweep(st, m, fails)[..n + 1]
  {
    LoopBackend(st, m, fails, n);
    if n > 0 {
      LoopSweeps(st, m, fails, n - 1);
    }
  }

  function RemoveEffect(st: State, m: Match, fails: set<nat>, save: Outcome): (e: Effect<Removal>)
    ensures e.trace != [] && e.trace[0] == st.durable
  {
    var n := |st.peers|;
    var kept := Kept(st.peers, m, fails, n);
    var firstErr := if SomeFail(st.peers, m, fails, n) then Some(BackendFailed) else None;
    var swept := Sweep(st, m, fails);
    if |kept| == n then
      Effect(Removal(0, firstErr), st.peers, swept)
    else
      var all := swept + WithBackend(WriteTrace(st.durable.disk, kept, save), Last(swept).backend);
      if save.Done? then Effect(Removal(n - |kept|, firstErr), kept, all)
      else Effect(Removal(0, Some(SaveFailed)), st.peers, all)
  }

  // ---------------------------------------------------------------- restore

  function Stored(c: Content<seq<Peer>>): seq<Peer> {
    if c.Whole? then c.value else []
  }

  predicate Applies(peers: seq<Peer>, fails: set<nat>, i: nat)
    requires i < |peers|
  {
    !peers[i].address.Garbled? && i !in fails
  }

  /** The first position from `i` on where re-applying the stored list stops. */
  function StopAt(peers: seq<Peer>, fails: set<nat>, i: nat): (r: nat)
    requires i <= |peers|
    ensures i <= r <= |peers|
    ensures forall j | i <= j < r :: Applies(peers, fails, j)
    ensures forall j | i <= j < r :: !peers[j].address.Garbled?
    ensures r < |peers| ==> !Applies(peers, fails, r)
    decreases |peers| - i
  {
    if i < |peers| && Applies(peers, fails, i) then StopAt(peers, fails, i + 1) else i
  }

  /** A backend after the first `n` peers were added to it. */
  function Reapply(backend: map<Key, Address>, peers: seq<Peer>, n: nat): map<Key, Address>
    requires n <= |peers| && forall j | 0 <= j < n :: !peers[j].address.Garbled?
  {
    if n == 0 then backend
    else Reapply(backend, peers, n - 1)[peers[n - 1].publicKey := peers[n - 1].address]
  }

  function ReapplyTrace(d: Durable, peers: seq<Peer>, n: nat): (trace: seq<Durable>)
    requires n <= |peers| && forall j | 0 <= j < n :: !peers[j].address.Garbled?
    ensures |trace| == n + 1 && trace[0] == d
  {
    seq(n + 1, k requires 0 <= k <= n => d.(backend := Reapply(d.backend, peers, k)))
  }

  /** Starting from durable state only; the memory of the old process is gone. */
  function RestoreEffect(d: Durable, readOk: bool, fails: set<nat>): (e: Effect<Option<Error>>)
    ensures e.trace != [] && e.trace[0] == d
  {
    match d.disk.target
    case Absent => Effect(None, [], [d])
    case Torn => Effect(Some(if readOk then BadJson else ReadFailed), [], [d])
    case Whole(ps) =>
      if !readOk then Effect(Some(ReadFailed), [], [d])
      else
        var stop := StopAt(ps, fails, 0);
        var error := if stop == |ps| then None else if ps[stop].address.Garbled? then Some(BadAddress)
            else Some(BackendFailed);
        Effect(error, ps, ReapplyTrace(d, ps, stop))
  }

  // ---------------------------------------------------------------- the classes

  /** The backend as a map; a failing call changes nothing. */
  class Backend {
    var peers: map<Key, Address>

    constructor ()
      ensures peers == map[]
    {
      peers := map[];
    }

    method AddPeer(key: Key, a: Address, works: bool) returns (ok: bool)
      modifies this
      ensures ok == works
      ensures peers == if works then old(peers)[key := a] else old(peers)
    {
      if works {
        peers := peers[key := a];
      }
      ok := works;
    }

    method RemovePeer(key: Key, works: bool) returns (ok: bool)
      modifies this
      ensures ok == works
      ensures peers == if works then old(peers) - {key} else old(peers)
    {
      if works {
        peers := peers - {key};
      }
      ok := works;
    }
  }

  class Service {
    const pool: Pool
    const backend: Backend
    const file: File<seq<Peer>>
    var peers: seq<Peer>

    ghost predicate Valid() {
      pool.Valid()
    }

    ghost function Now(): Durable
      reads file, backend
    {
      Durable(file.disk, backend.peers)
    }

    ghost function Snapshot(): State
      reads this, file, backend
    {
      State(peers, Now())
    }

    constructor (pool: Pool, backend: Backend, file: File<seq<Peer>>)
      requires pool.Valid()
      ensures Valid() && this.pool == pool && this.backend == backend && this.file == file
      ensures peers == []
    {
      this.pool := pool;
      this.backend := backend;
      this.file := file;
      this.peers := [];
    }

    method Restore(readOk: bool, fails: set<nat>) returns (error: Option<Error>, ghost trace: seq<Durable>)
      requires peers == []
      modifies this, backend
      ensures var e := RestoreEffect(old(Now()), readOk, fails);
              error == e.result && Snapshot() == After(e) && trace == e.trace
    {
      ghost var start := Now();
      trace := [start];
      var content := file.disk.target;
      if content.Absent? {
        return None, trace;
      }
      if !readOk {
        return Some(ReadFailed), trace;
      }
      if content.Torn? {
        return Some(BadJson), trace;
      }
      peers := content.value;
      for i := 0 to |peers|
        invariant peers == content.value && file.disk == start.disk
        invariant forall j | 0 <= j < i :: !peers[j].address.Garbled?
        invariant StopAt(peers, fails, 0) == StopAt(peers, fails, i)
        invariant backend.peers == Reapply(start.backend, peers, i)
        invariant trace == ReapplyTrace(start, peers, i)
      {
        if peers[i].address.Garbled? {
          return Some(BadAddress), trace;
        }
        var ok := backend.AddPeer(peers[i].publicKey, peers[i].address, i !in fails);
        if !ok {
          return Some(BackendFailed), trace;
        }
        trace := trace + [Now()];
      }
      error := None;
    }

    /** The checks and the allocation that happen under the lock. */
    method AdmitPeer(key: Key, opt: CreateOptions) returns (r: Result<nat, Error>)
      requires Valid()
      ensures r == Admit(pool, peers, key, opt)
    {
      var used: set<nat> := {};
      var owned := 0;
      for i := 0 to |peers|
        invariant forall j | 0 <= j < i :: peers[j].publicKey != key
        invariant used == Addresses(peers[..i])
        invariant owned == if opt.owner == "" then 0 else OwnedCount(peers[..i], opt.owner)
      {
        var p := peers[i];
        if p.publicKey == key {
          return Err(DuplicateKey);
        }
        assert peers[..i + 1] == peers[..i] + [p];
        if opt.owner != "" && p.owner == opt.owner {
          owned := owned + 1;
        }
        if p.address.Addr? {
          used := used + {p.address.a};
        }
      }
      assert peers[..|peers|] == peers;
      if opt.maxPerOwner > 0 && owned >= opt.maxPerOwner {
        return Err(LimitReached);
      }
      var a := pool.Allocate(used);
      r := if a.None? then Err(Exhausted) else Ok(a.value);
    }

    method Create(req: CreateRequest, w: CreateWorld) returns (r: Result<Peer, Error>, ghost trace: seq<Durable>)
      requires Valid()
      modifies this, backend, file
      ensures var e := CreateEffect(pool, old(Snapshot()), req, w);
              r == e.result && Snapshot() == After(e) && trace == e.trace
    {
      trace := [Now()];
      var name := TrimSpace(req.name);
      if !ValidName(name) {
        return Err(Invalid), trace;
      }
      var resolved := ResolveKey(req.key);
      if resolved.Err? {
        return Err(resolved.error), trace;
      }
      var key := resolved.value;
      var admitted := AdmitPeer(key, req.opt);
      if admitted.Err? {
        return Err(admitted.error), trace;
      }
      if w.id.None? {
        return Err(Random), trace;
      }
      var peer := NewPeer(req, key, admitted.value, w);
      var added := backend.AddPeer(key, Addr(admitted.value), w.addOk);
      if !added {
        return Err(BackendFailed), trace;
      }
      peers := peers + [peer];
      var saved, disks := file.WriteFileAtomic(peers, w.save);
      trace := trace + WithBackend(disks, backend.peers);
      if !saved {
        peers := peers[..|peers| - 1];
        var removed := backend.RemovePeer(key, w.rollbackOk);
        if removed {
          trace := trace + [Now()];
        }
        return Err(SaveFailed), trace;
      }
      r := Ok(peer);
    }

    /** The loop of `RemoveWhere`: matching peers leave the backend, the others are kept. */
    method RemoveFromBackend(m: Match, fails: set<nat>)
      returns (kept: seq<Peer>, firstErr: Option<Error>, removed: nat, ghost trace: seq<Durable>)
      modifies backend
      ensures kept == Kept(peers, m, fails, |peers|) && removed == |peers| - |kept|
      ensures firstErr == if SomeFail(peers, m, fails, |peers|) then Some(BackendFailed) else None
      ensures trace == Sweep(old(Snapshot()), m, fails)
      ensures Now() == Last(trace)
    {
      ghost var start := Snapshot();
      trace := [Now()];
      kept, firstErr, removed := [], None, 0;
      for i := 0 to |peers|
        invariant LoopState(kept, firstErr, backend.peers, trace) == Loop(start, m, fails, i)
        invariant removed == i - |kept|
      {
        var p := peers[i];
        if !Matches(m, p) {
          kept := kept + [p];
        } else {
          var ok := backend.RemovePeer(p.publicKey, i !in fails);
          if !ok {
            if firstErr.None? {
              firstErr := Some(BackendFailed);
            }
            kept := kept + [p];
          } else {
            removed := removed + 1;
          }
        }
        trace := trace + [Now()];
      }
      LoopKeeps(start, m, fails, |peers|);
      LoopErrs(start, m, fails, |peers|);
      LoopBackend(start, m, fails, |peers|);
      LoopSweeps(start, m, fails, |peers|);
    }

    method RemoveWhere(m: Match, fails: set<nat>, save: Outcome) returns (r: Removal, ghost trace: seq<Durable>)
      modifies this, backend, file
      ensures var e := RemoveEffect(old(Snapshot()), m, fails, save);
              r == e.result && Snapshot() == After(e) && trace == e.trace
    {
      var kept, firstErr, removed;
      kept, firstErr, removed, trace := RemoveFromBackend(m, fails);
      if removed == 0 {
        return Removal(0, firstErr), trace;
      }
      var prev := peers;
      peers := kept;
      var saved, disks := file.WriteFileAtomic(peers, save);
      trace := trace + WithBackend(disks, backend.peers);
      if !saved {
        peers := prev;
        return Removal(0, Some(SaveFailed)), trace;
      }
      r := Removal(removed, firstErr);
    }

    /** Delete and DeleteOwned: a match that removes nothing is an error. */
    method DeleteOne(m: Match, fails: set<nat>, save: Outcome) returns (error: Option<Error>)
      modifies this, backend, file
      ensures var e := RemoveEffect(old(Snapshot()), m, fails, save);
              && Snapshot() == After(e)
              && error == if e.result.error.Some? then e.result.error
                          else if e.result.removed == 0 then Some(NotFound) else None
    {
      var r, _ := RemoveWhere(m, fails, save);
      if r.error.Some? {
        return r.error;
      }
      if r.removed == 0 {
        return Some(NotFound);
      }
      error := None;
    }

    method ListOwned(owner: string) returns (out: seq<Peer>)
      ensures out == Owned(peers, owner)
    {
      out := [];
      for i := 0 to |peers|
        invariant out == Owned(peers[..i], owner)
      {
        assert peers[..i + 1] == peers[..i] + [peers[i]];
        if peers[i].owner == owner {
          out := out + [peers[i]];
        }
      }
      assert peers[..|peers|] == peers;
    }
  }

  function Owned(peers: seq<Peer>, owner: string): (out: seq<Peer>)
    ensures |out| == OwnedCount(peers, owner)
  {
    if peers == [] then []
    else
      var rest := Owned(peers[..|peers| - 1], owner);
      if Last(peers).owner == owner then rest + [Last(peers)] else rest
  }
}
