/** The handlers of the VPN service over the whole state, and the class that runs them. */
module VpnHandlers {
  import opened Wrappers
  import opened AtomicFiles
  import opened AddressPool
  import opened PeerService
  import opened OwnerStores
  import opened SignIn
  import opened Reconciler

  datatype Config = Config(group: string, maxPeers: nat, peerTTL: nat)

  datatype CallbackRequest = CallbackRequest(
    cookie: Option<string>, state: string, now: int, error: string, code: string,
    ex: Exchange, save: Outcome, sid: string, openedAt: int)

  /** Who asks: the session cookie, the time of the check, and whether the origin is ours. */
  datatype Caller = Caller(sid: Option<string>, now: int, sameOrigin: bool)

  datatype Denied = NoSession | CrossOrigin | Failed(error: Error)

  function CallbackStep(v: Vpn, c: Config, r: CallbackRequest): (Vpn, Result<User, CallbackError>) {
    if r.cookie != Some(r.state) || r.state == "" then (v, Err(StateMismatch)) else
    var (pending, taken) := TakeSection(v.pending, r.state);
    var v1 := v.(pending := pending);
    match Vet(taken, r.now, r.error, r.code, r.ex, c.group)
    case Err(x) => (v1, Err(x))
    case Ok(u) =>
      var v2 := v1.(owners := SetRecord(v.owners, u.sub, u.name, r.ex.refresh, r.save));
      if !r.save.Done? then (v2, Err(StoreFailed))
      else (v2.(sessions := OpenSection(v.sessions, r.sid, u, r.openedAt)), Ok(u))
  }

  function SessionStep(v: Vpn, who: Caller): (Vpn, Option<User>) {
    if who.sid.None? then (v, None)
    else
      var (sessions, user) := CurrentSection(v.sessions, who.sid.value, who.now);
      (v.(sessions := sessions), user)
  }

  /** A state-changing request by a signed-in user. */
  function RequireStep(v: Vpn, who: Caller): (Vpn, Result<User, Denied>) {
    var (v1, user) := SessionStep(v, who);
    if user.None? then (v1, Err(NoSession))
    else if !who.sameOrigin then (v1, Err(CrossOrigin))
    else (v1, Ok(user.value))
  }

  function LogoutStep(v: Vpn, who: Caller): Vpn {
    var (v1, user) := RequireStep(v, who);
    if user.Err? || who.sid.None? then v1 else v1.(sessions := v1.sessions - {who.sid.value})
  }

  function CreateMineStep(v: Vpn, c: Config, pool: Pool, who: Caller, name: string, key: KeyInput, w: CreateWorld):
    (Vpn, Result<Peer, Denied>)
    requires pool.prefix.bits <= pool.prefix.width
  {
    var (v1, user) := RequireStep(v, who);
    match user
    case Err(x) => (v1, Err(x))
    case Ok(u) =>
      var e := CreateEffect(pool, v1.svc,
          CreateRequest(name, key, CreateOptions(u.sub, u.name, c.peerTTL, c.maxPeers)), w);
      (v1.(svc := After(e)), if e.result.Ok? then Ok(e.result.value) else Err(Failed(e.result.error)))
  }

  function DeleteOneError(r: Removal): Option<Error> {
    if r.error.Some? then r.error else if r.removed == 0 then Some(NotFound) else None
  }

  function DeleteMineStep(v: Vpn, who: Caller, id: string, fails: set<nat>, save: Outcome): (Vpn, Option<Denied>) {
    var (v1, user) := RequireStep(v, who);
    match user
    case Err(x) => (v1, Some(x))
    case Ok(u) =>
      var e := RemoveEffect(v1.svc, ByIdAndOwner(id, u.sub), fails, save);
      var error := DeleteOneError(e.result);
      (v1.(svc := After(e)), if error.Some? then Some(Failed(error.value)) else None)
  }

  function AdminCreateStep(v: Vpn, pool: Pool, name: string, key: KeyInput, w: CreateWorld): Vpn
    requires pool.prefix.bits <= pool.prefix.width
  {
    v.(svc := After(CreateEffect(pool, v.svc, CreateRequest(name, key, CreateOptions("", "", 0, 0)), w)))
  }

  function AdminDeleteStep(v: Vpn, id: string, fails: set<nat>, save: Outcome): Vpn {
    v.(svc := After(RemoveEffect(v.svc, ById(id), fails, save)))
  }

  class Authenticator {
    const config: Config
    const svc: Service
    const owners: OwnerStore
    var pending: Pendings
    var sessions: Sessions

    ghost predicate Valid() {
      svc.Valid() && svc.file as object != owners.file as object
    }

    ghost function Snapshot(): Vpn
      reads this, svc, svc.file, svc.backend, owners, owners.file
    {
      Vpn(svc.Snapshot(), owners.Snapshot(), pending, sessions)
    }

    constructor (config: Config, svc: Service, owners: OwnerStore)
      requires svc.Valid() && svc.file as object != owners.file as object
      ensures Valid() && this.config == config && this.svc == svc && this.owners == owners
      ensures pending == map[] && sessions == map[]
    {
      this.config := config;
      this.svc := svc;
      this.owners := owners;
      this.pending := map[];
      this.sessions := map[];
    }

    method Login(now: int, state: string, nonce: string, verifier: string) returns (ok: bool)
      modifies this
      ensures (pending, ok) == LoginSection(old(pending), now, state, nonce, verifier)
      ensures sessions == old(sessions)
    {
      ghost var before := pending;
      var keys := pending.Keys;
      while keys != {}
        invariant keys <= before.Keys
        invariant forall k <- pending :: k in before && pending[k] == before[k]
        invariant forall k <- before :: k in pending <==> k in keys || now <= before[k].expires
        invariant sessions == old(sessions)
      {
        var k :| k in keys;
        if k in pending && now > pending[k].expires {
          pending := pending - {k};
        }
        keys := keys - {k};
      }
      assert pending == Prune(before, now);
      if |pending| >= MAX_PENDING {
        return false;
      }
      pending := pending[state := PendingLogin(verifier, nonce, now + LOGIN_TTL)];
      ok := true;
    }

    method Callback(r: CallbackRequest) returns (result: Result<User, CallbackError>)
      requires Valid()
      modifies this, owners, owners.file
      ensures (Snapshot(), result) == CallbackStep(old(Snapshot()), config, r)
    {
      if r.cookie != Some(r.state) || r.state == "" {
        return Err(StateMismatch);
      }
      var taken := if r.state in pending then Some(pending[r.state]) else None;
      pending := pending - {r.state};
      var vetted := Vet(taken, r.now, r.error, r.code, r.ex, config.group);
      if vetted.Err? {
        return Err(vetted.error);
      }
      var u := vetted.value;
      var stored := owners.Set(u.sub, u.name, r.ex.refresh, r.save);
      if !stored {
        return Err(StoreFailed);
      }
      sessions := sessions[r.sid := Session(u, r.openedAt + SESSION_TTL)];
      result := Ok(u);
    }

    method Current(who: Caller) returns (user: Option<User>)
      requires Valid()
      modifies this
      ensures (Snapshot(), user) == SessionStep(old(Snapshot()), who)
    {
      if who.sid.None? {
        return None;
      }
      var sid := who.sid.value;
      if sid !in sessions || who.now > sessions[sid].expires {
        sessions := sessions - {sid};
        return None;
      }
      user := Some(sessions[sid].user);
    }

    method Require(who: Caller) returns (user: Result<User, Denied>)
      requires Valid()
      modifies this
      ensures (Snapshot(), user) == RequireStep(old(Snapshot()), who)
    {
      var u := Current(who);
      if u.None? {
        return Err(NoSession);
      }
      if !who.sameOrigin {
        return Err(CrossOrigin);
      }
      user := Ok(u.value);
    }

    method Logout(who: Caller)
      requires Valid()
      modifies this
      ensures Snapshot() == LogoutStep(old(Snapshot()), who)
    {
      var user := Require(who);
      if user.Ok? && who.sid.Some? {
        sessions := sessions - {who.sid.value};
      }
    }

    method CreateMine(who: Caller, name: string, key: KeyInput, w: CreateWorld) returns (r: Result<Peer, Denied>)
      requires Valid()
      modifies this, svc, svc.file, svc.backend
      ensures (Snapshot(), r) == CreateMineStep(old(Snapshot()), config, svc.pool, who, name, key, w)
    {
      var user := Require(who);
      if user.Err? {
        return Err(user.error);
      }
      var opt := CreateOptions(user.value.sub, user.value.name, config.peerTTL, config.maxPeers);
      var created, _ := svc.Create(CreateRequest(name, key, opt), w);
      r := if created.Ok? then Ok(created.value) else Err(Failed(created.error));
    }

    method DeleteMine(who: Caller, id: string, fails: set<nat>, save: Outcome) returns (r: Option<Denied>)
      requires Valid()
      modifies this, svc, svc.file, svc.backend
      ensures (Snapshot(), r) == DeleteMineStep(old(Snapshot()), who, id, fails, save)
    {
      var user := Require(who);
      if user.Err? {
        return Some(user.error);
      }
      var error := svc.DeleteOne(ByIdAndOwner(id, user.value.sub), fails, save);
      r := if error.Some? then Some(Failed(error.value)) else None;
    }

    method StillAllowed(sub: string, rec: OwnerRecord, w: World) returns (allowed: bool)
      requires Valid()
      modifies owners, owners.file
      ensures Snapshot() == Refresh(old(Snapshot()), sub, rec, w)
      ensures allowed == Reconciler.StillAllowed(w.reply(sub), config.group)
    {
      var reply := w.reply(sub);
      match reply
      case Unreachable => return true;
      case Refused(code, status) =>
        return !(code == "invalid_grant" || status == Some(400) || status == Some(401));
      case Refreshed(refresh, id) => {
        if refresh != "" && refresh != rec.refreshToken {
          var _ := owners.Set(sub, rec.name, refresh, w.rotationSave(sub));
        }
        return id.Groups? ==> config.group in id.groups;
      }
    }

    method Revoke(sub: string, w: World)
      requires Valid()
      modifies this, svc, svc.file, svc.backend, owners, owners.file
      ensures Snapshot() == Revoked(old(Snapshot()), sub, w)
    {
      var r, _ := svc.RemoveWhere(ByOwner(sub), w.revokeFails(sub), w.revokeSave(sub));
      if r.error.Some? {
        return;
      }
      var _ := owners.Delete(sub, w.deleteSave(sub));
      ghost var before := sessions;
      var ids := sessions.Keys;
      while ids != {}
        invariant ids <= before.Keys
        invariant forall i <- sessions :: i in before && sessions[i] == before[i]
        invariant forall i <- before :: i in sessions <==> i in ids || before[i].user.sub != sub
        invariant svc.Snapshot()
                  == After(RemoveEffect(old(svc.Snapshot()), ByOwner(sub), w.revokeFails(sub), w.revokeSave(sub)))
        invariant owners.Snapshot() == DeleteRecord(old(owners.Snapshot()), sub, w.deleteSave(sub))
        invariant pending == old(pending)
      {
        var i :| i in ids;
        if i in sessions && sessions[i].user.sub == sub {
          sessions := sessions - {i};
        }
        ids := ids - {i};
      }
      assert sessions == RevokeSection(before, sub);
    }

    /** The snapshot is visited in an arbitrary order, which `order` records. */
    method Reconcile(w: World) returns (ghost order: seq<string>)
      requires Valid()
      modifies this, svc, svc.file, svc.backend, owners, owners.file
      ensures Enumerates(order, old(owners.m).Keys)
      ensures Snapshot() == Reconciled(old(Snapshot()), order, w, config.group)
    {
      var _, _ := svc.RemoveWhere(Expired(w.now), w.expiryFails, w.expirySave);
      ghost var start := Snapshot();
      var snapshot := owners.m;
      var todo := snapshot.Keys;
      order := [];
      while todo != {}
        invariant Valid()
        invariant todo <= snapshot.Keys
        invariant forall s <- order :: s in snapshot && s !in todo
        invariant forall s <- snapshot :: s in todo || s in order
        invariant forall i, j :: 0 <= i < j < |order| ==> order[i] != order[j]
        invariant Snapshot() == Rounds(start, snapshot, order, w, config.group)
      {
        var sub :| sub in todo;
        var rec := snapshot[sub];
        assert (order + [sub])[..|order|] == order;
        var own := svc.ListOwned(sub);
        if rec.refreshToken != "" && own != [] {
          var allowed := StillAllowed(sub, rec, w);
          if !allowed {
            Revoke(sub, w);
          }
        }
        todo := todo - {sub};
        order := order + [sub];
      }
    }
  }
}
