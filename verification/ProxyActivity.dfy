/**
 The registry of open proxy connections.  `begin` hands out a closure that ends the
 connection; closures may be called late or more than once, from any goroutine.
 */
module ProxyActivity {
  const WRAP: nat := 0x1_0000_0000_0000_0000

  /** A cancel function is known by the number of the `begin` it was passed to. */
  type Connections = map<string, map<nat, nat>>

  datatype Registry = Registry(nextID: nat, connections: Connections)

  function Of(c: Connections, user: string): map<nat, nat> {
    if user in c then c[user] else map[]
  }

  function NextId(r: Registry): nat {
    (r.nextID + 1) % WRAP
  }

  function Opened(r: Registry, user: string, cancel: nat): Registry {
    Registry(NextId(r), r.connections[user := Of(r.connections, user)[NextId(r) := cancel]])
  }

  function Closed(r: Registry, user: string, id: nat): Registry {
    var left := Of(r.connections, user) - {id};
    r.(connections := if left == map[] then r.connections - {user} else r.connections[user := left])
  }

  function Count(c: Connections, user: string): nat {
    |Of(c, user)|
  }

  /** The sum of the users' counts; the order in which users are taken does not matter. */
  ghost function Total(c: Connections, users: set<string>): nat
    requires users <= c.Keys
  {
    if users == {} then 0
    else
      var u :| u in users;
      |c[u]| + Total(c, users - {u})
  }

  lemma {:induction false} TotalTakes(c: Connections, users: set<string>, x: string)
    requires users <= c.Keys && x in users
    ensures Total(c, users) == |c[x]| + Total(c, users - {x})
  {
    var u :| u in users && Total(c, users) == |c[u]| + Total(c, users - {u});
    if u != x {
      TotalTakes(c, users - {u}, x);
      TotalTakes(c, users - {x}, u);
      assert users - {u} - {x} == users - {x} - {u};
    }
  }

  lemma {:induction false} TotalFrame(c: Connections, d: Connections, users: set<string>)
    requires users <= c.Keys && users <= d.Keys
    requires forall u <- users :: |c[u]| == |d[u]|
    ensures Total(c, users) == Total(d, users)
  {
    if users != {} {
      var u :| u in users;
      TotalTakes(c, users, u);
      TotalTakes(d, users, u);
      TotalFrame(c, d, users - {u});
    }
  }

  class Activity {
    var nextID: nat
    var connections: Connections

    ghost function Snapshot(): Registry
      reads this
    {
      Registry(nextID, connections)
    }

    constructor ()
      ensures Snapshot() == Registry(0, map[])
    {
      nextID := 0;
      connections := map[];
    }

    method Begin(username: string, cancel: nat) returns (finish: Finish)
      modifies this
      ensures fresh(finish) && !finish.done && finish.activity == this && finish.user == username
      ensures Snapshot() == if username == "" then old(Snapshot()) else Opened(old(Snapshot()), username, cancel)
      ensures username != "" ==> finish.id == NextId(old(Snapshot()))
    {
      if username == "" {
        finish := new Finish(this, "", 0);
        return;
      }
      nextID := (nextID + 1) % WRAP;
      if username !in connections {
        connections := connections[username := map[]];
      }
      var open: map<nat, nat> := connections[username];
      open := open[nextID := cancel];
      connections := connections[username := open];
      finish := new Finish(this, username, nextID);
    }

    /** Collects the callbacks under the lock and calls each of them after it. */
    method Disconnect(username: string) returns (n: nat, called: set<nat>)
      ensures n == Count(connections, username)
      ensures called == Of(connections, username).Values
    {
      var todo := if username in connections then connections[username] else map[];
      ghost var all := todo;
      n, called := |todo|, {};
      while todo != map[]
        invariant todo.Keys <= all.Keys
        invariant forall k <- todo :: todo[k] == all[k]
        invariant called == set k | k in all && k !in todo :: all[k]
        decreases |todo|
      {
        var k :| k in todo;
        called := called + {todo[k]};
        ghost var before := todo;
        todo := todo - {k};
        assert |todo| < |before| by { MapShrinks(before, k); }
      }
      assert called == all.Values;
    }

    method CountOf(username: string) returns (n: nat)
      ensures n == Count(connections, username)
    {
      n := if username in connections then |connections[username]| else 0;
    }

    method Summary() returns (activeUsers: nat, activeConnections: nat)
      ensures activeUsers == |ActiveUsers(connections)|
      ensures activeConnections == Total(connections, connections.Keys)
    {
      activeUsers, activeConnections := 0, 0;
      var todo := connections.Keys;
      while todo != {}
        invariant todo <= connections.Keys
        invariant activeUsers == |ActiveUsers(connections) - todo|
        invariant activeConnections + Total(connections, todo) == Total(connections, connections.Keys)
      {
        var u :| u in todo;
        TotalTakes(connections, todo, u);
        OneLessToDo(ActiveUsers(connections), todo, u);
        var n := |connections[u]|;
        if n > 0 {
          activeUsers := activeUsers + 1;
          activeConnections := activeConnections + n;
        }
        todo := todo - {u};
      }
      assert ActiveUsers(connections) - todo == ActiveUsers(connections);
    }
  }

  lemma OneLessToDo<T>(all: set<T>, todo: set<T>, u: T)
    requires u in todo
    ensures |all - (todo - {u})| == |all - todo| + if u in all then 1 else 0
  {
    assert all - (todo - {u}) == if u in all then all - todo + {u} else all - todo;
  }

  /** The users with at least one connection. */
  ghost function ActiveUsers(c: Connections): (s: set<string>)
    ensures s <= c.Keys
  {
    set u | u in c && |c[u]| > 0
  }

  lemma MapShrinks<K, V>(m: map<K, V>, k: K)
    requires k in m
    ensures |m - {k}| == |m| - 1
  {
    assert (m - {k}).Keys == m.Keys - {k};
    assert |m - {k}| == |(m - {k}).Keys| && |m| == |m.Keys|;
  }

  /** The closure returned by `begin`: only its first call acts. */
  class Finish {
    const activity: Activity
    const user: string
    const id: nat
    var done: bool

    constructor (activity: Activity, user: string, id: nat)
      ensures this.activity == activity && this.user == user && this.id == id && !done
    {
      this.activity := activity;
      this.user := user;
      this.id := id;
      this.done := false;
    }

    method Call()
      modifies this, activity
      ensures done
      ensures activity.Snapshot() == if old(done) || user == "" then old(activity.Snapshot())
                                     else Closed(old(activity.Snapshot()), user, id)
    {
      if done || user == "" {
        done := true;
        return;
      }
      done := true;
      var left := if user in activity.connections then activity.connections[user] - {id} else map[];
      if left == map[] {
        activity.connections := activity.connections - {user};
      } else {
        activity.connections := activity.connections[user := left];
      }
    }
  }

  // ---------------------------------------------------------------- every interleaving

  /** One `begin` and whether its closure has been called yet. */
  datatype Conn = Conn(user: string, id: nat, fired: bool)

  /** `conns` is history, `cancelled` the begins whose cancel function some disconnect collected. */
  datatype World = World(reg: Registry, conns: seq<Conn>, cancelled: set<nat>)

  datatype Event = Begin(user: string) | FinishCall(which: nat) | Disconnect(user: string)

  function Step(w: World, e: Event): World {
    match e
    case Begin(user) =>
      if user == "" then w.(conns := w.conns + [Conn("", 0, false)])
      else World(Opened(w.reg, user, |w.conns|), w.conns + [Conn(user, NextId(w.reg), false)], w.cancelled)
    case FinishCall(which) =>
      if which >= |w.conns| || w.conns[which].fired then w
      else
        var c := w.conns[which];
        w.(conns := w.conns[which := c.(fired := true)],
           reg := if c.user == "" then w.reg else Closed(w.reg, c.user, c.id))
    case Disconnect(user) => w.(cancelled := w.cancelled + Of(w.reg.connections, user).Values)
  }

  const EMPTY := World(Registry(0, map[]), [], {})

  function Run(events: seq<Event>): World {
    if events == [] then EMPTY else Step(Run(events[..|events| - 1]), events[|events| - 1])
  }

  /** Begins by a user, and first calls of their closures. */
  function Begins(conns: seq<Conn>, user: string): (n: nat) {
    if conns == [] then 0
    else Begins(conns[..|conns| - 1], user) + if conns[|conns| - 1].user == user then 1 else 0
  }

  function FirstFinishes(conns: seq<Conn>, user: string): (n: nat) {
    if conns == [] then 0
    else
      var c := conns[|conns| - 1];
      FirstFinishes(conns[..|conns| - 1], user) + if c.user == user && c.fired then 1 else 0
  }

  predicate IsOpen(w: World, h: nat) {
    h < |w.conns| && !w.conns[h].fired && w.conns[h].user != ""
  }

  /** The begins of a user that are still open. */
  function OpenOf(w: World, user: string): set<nat> {
    set h: nat | h < |w.conns| && IsOpen(w, h) && w.conns[h].user == user
  }

  /** The new identifier is still taken by an open connection of the same user. */
  predicate Collides(w: World, e: Event) {
    e.Begin? && e.user != "" && NextId(w.reg) in Of(w.reg.connections, e.user)
  }

  /** What the counts should say. */
  ghost predicate Exact(w: World) {
    forall u | u != "" :: Count(w.reg.connections, u) == Begins(w.conns, u) - FirstFinishes(w.conns, u)
  }

  /** The registry holds exactly the open begins, each under its own identifier. */
  ghost predicate Holds(w: World) {
    && "" !in w.reg.connections
    && (forall u <- w.reg.connections :: w.reg.connections[u] != map[])
    && (forall h: nat | IsOpen(w, h) ::
          w.conns[h].id in Of(w.reg.connections, w.conns[h].user)
              && Of(w.reg.connections, w.conns[h].user)[w.conns[h].id] == h)
    && (forall u, i | i in Of(w.reg.connections, u) ::
          var h := Of(w.reg.connections, u)[i]; IsOpen(w, h) && w.conns[h].user == u && w.conns[h].id == i)
  }

  lemma BeginKeeps(w: World, user: string)
    requires Holds(w) && Exact(w) && !Collides(w, Begin(user))
    ensures Holds(Step(w, Begin(user))) && Exact(Step(w, Begin(user)))
  {
    if user != "" {
      BeginHolds(w, user);
      BeginCounts(w, user);
    } else {
      var w' := Step(w, Begin(user));
      assert w'.conns[..|w.conns|] == w.conns;
      assert forall h: nat :: IsOpen(w', h) <==> IsOpen(w, h);
      assert forall h: nat | IsOpen(w, h) :: w'.conns[h] == w.conns[h];
    }
  }

  lemma BeginCounts(w: World, user: string)
    requires Exact(w) && user != "" && !Collides(w, Begin(user))
    ensures Exact(Step(w, Begin(user)))
  {
    var w' := Step(w, Begin(user));
    assert w'.conns[..|w.conns|] == w.conns;
    GrowsByOne(Of(w.reg.connections, user), NextId(w.reg), |w.conns|);
  }

  lemma GrowsByOne(m: map<nat, nat>, k: nat, v: nat)
    ensures |m[k := v]| == |m| + if k in m then 0 else 1
  {
    assert m[k := v].Keys == m.Keys + {k};
    assert |m[k := v]| == |m[k := v].Keys| && |m| == |m.Keys|;
    if k in m {
      assert m.Keys + {k} == m.Keys;
    }
  }

  lemma BeginHolds(w: World, user: string)
    requires Holds(w) && user != "" && !Collides(w, Begin(user))
    ensures Holds(Step(w, Begin(user)))
  {
    var w' := Step(w, Begin(user));
    forall h: nat | IsOpen(w', h) && h < |w.conns|
      ensures w'.conns[h].id in Of(w'.reg.connections, w'.conns[h].user)
      ensures Of(w'.reg.connections, w'.conns[h].user)[w'.conns[h].id] == h
    {
      assert w'.conns[h] == w.conns[h] && IsOpen(w, h);
    }
    forall u, i | i in Of(w'.reg.connections, u)
      ensures var h := Of(w'.reg.connections, u)[i]; IsOpen(w', h) && w'.conns[h].user == u && w'.conns[h].id == i
    {
      if !(u == user && i == NextId(w.reg)) {
        assert i in Of(w.reg.connections, u);
      }
    }
  }

  lemma {:induction false} FiringCounts(conns: seq<Conn>, h: nat, user: string)
    requires h < |conns| && !conns[h].fired
    ensures var after := conns[h := conns[h].(fired := true)];
            && Begins(after, user) == Begins(conns, user)
            && FirstFinishes(after, user) == FirstFinishes(conns, user) + if conns[h].user == user then 1 else 0
  {
    var after := conns[h := conns[h].(fired := true)];
    var n := |conns| - 1;
    if h < n {
      FiringCounts(conns[..n], h, user);
      assert after[..n] == conns[..n][h := conns[h].(fired := true)];
    } else {
      assert after[..n] == conns[..n];
    }
  }

  lemma FinishHolds(w: World, h: nat)
    requires Holds(w) && IsOpen(w, h)
    ensures Holds(Step(w, FinishCall(h)))
  {
    var w' := Step(w, FinishCall(h));
    var c := w.conns[h];
    forall g: nat | IsOpen(w', g)
      ensures w'.conns[g].id in Of(w'.reg.connections, w'.conns[g].user)
      ensures Of(w'.reg.connections, w'.conns[g].user)[w'.conns[g].id] == g
    {
      assert g != h && IsOpen(w, g) && w'.conns[g] == w.conns[g];
    }
    forall u, i | i in Of(w'.reg.connections, u)
      ensures var g := Of(w'.reg.connections, u)[i]; IsOpen(w', g) && w'.conns[g].user == u && w'.conns[g].id == i
    {
      assert i in Of(w.reg.connections, u);
      var g := Of(w.reg.connections, u)[i];
      assert IsOpen(w, g) && g != h;
    }
  }

  lemma FinishKeeps(w: World, h: nat)
    requires Holds(w) && Exact(w)
    ensures Holds(Step(w, FinishCall(h))) && Exact(Step(w, FinishCall(h)))
  {
    if h < |w.conns| && !w.conns[h].fired {
      if w.conns[h].user == "" {
        IdleFinishHolds(w, h);
      } else {
        FinishHolds(w, h);
      }
      FinishCounts(w, h);
    }
  }

  lemma IdleFinishHolds(w: World, h: nat)
    requires Holds(w) && h < |w.conns| && w.conns[h].user == ""
    ensures Holds(Step(w, FinishCall(h)))
  {
    var w' := Step(w, FinishCall(h));
    assert forall g: nat :: IsOpen(w', g) <==> IsOpen(w, g);
    assert forall g: nat | IsOpen(w, g) :: w'.conns[g] == w.conns[g];
  }

  lemma FinishCounts(w: World, h: nat)
    requires Holds(w) && Exact(w) && h < |w.conns| && !w.conns[h].fired
    ensures Exact(Step(w, FinishCall(h)))
  {
    var w' := Step(w, FinishCall(h));
    var c := w.conns[h];
    if c.user != "" {
      assert IsOpen(w, h);
      MapShrinks(Of(w.reg.connections, c.user), c.id);
    }
    forall u | u != "" ensures Count(w'.reg.connections, u) == Begins(w'.conns, u) - FirstFinishes(w'.conns, u) {
      FiringCounts(w.conns, h, u);
    }
  }

  /** No begin in the run met its own identifier still in use. */
  predicate NoCollision(events: seq<Event>) {
    events == [] || (NoCollision(events[..|events| - 1])
        && !Collides(Run(events[..|events| - 1]), events[|events| - 1]))
  }

  lemma {:induction false} RunHolds(events: seq<Event>)
    requires NoCollision(events)
    ensures Holds(Run(events)) && Exact(Run(events))
  {
    if events != [] {
      var w := Run(events[..|events| - 1]);
      RunHolds(events[..|events| - 1]);
      match events[|events| - 1]
      case Begin(user) => BeginKeeps(w, user);
      case FinishCall(h) => FinishKeeps(w, h);
      case Disconnect(_) =>
    }
  }

  /** A collision makes the count of its user wrong at once. */
  lemma CollisionMiscounts(w: World, user: string)
    requires Exact(w) && Collides(w, Begin(user))
    ensures !Exact(Step(w, Begin(user)))
  {
    var w' := Step(w, Begin(user));
    assert w'.conns[..|w.conns|] == w.conns;
    GrowsByOne(Of(w.reg.connections, user), NextId(w.reg), |w.conns|);
    assert Count(w'.reg.connections, user) == Count(w.reg.connections, user);
    assert Begins(w'.conns, user) == Begins(w.conns, user) + 1;
    assert FirstFinishes(w'.conns, user) == FirstFinishes(w.conns, user);
  }

  /** Exact now and at every earlier point of the run. */
  ghost predicate ExactThroughout(events: seq<Event>) {
    Exact(Run(events)) && (events != [] ==> ExactThroughout(events[..|events| - 1]))
  }

  /**
   The counts are right at every point of a run exactly when no wrapped identifier is
   handed out while an open connection of the same user still has it.
   */
  lemma {:induction false} CountsExactIff(events: seq<Event>)
    ensures ExactThroughout(events) <==> NoCollision(events)
  {
    if events != [] {
      var before := events[..|events| - 1];
      CountsExactIff(before);
      if NoCollision(events) {
        RunHolds(events);
      } else if NoCollision(before) {
        RunHolds(before);
        CollisionMiscounts(Run(before), events[|events| - 1].user);
      }
    }
  }

  /** Identifiers count up from one until they wrap. */
  ghost predicate Counting(w: World) {
    && w.reg.nextID <= |w.conns|
    && (forall u, i | i in Of(w.reg.connections, u) :: i <= w.reg.nextID)
  }

  /** Fewer than 2^64 begins never collide. */
  lemma {:induction false} ShortRunsNeverCollide(events: seq<Event>)
    requires |events| < 0x1_0000_0000_0000_0000
    ensures NoCollision(events) && Counting(Run(events)) && |Run(events).conns| <= |events|
  {
    if events != [] {
      var before := events[..|events| - 1];
      ShortRunsNeverCollide(before);
      var w := Run(before);
      assert NextId(w.reg) == w.reg.nextID + 1;
      CountingStep(w, events[|events| - 1]);
    }
  }

  lemma CountingStep(w: World, e: Event)
    requires Counting(w) && w.reg.nextID + 1 < WRAP
    ensures Counting(Step(w, e)) && !Collides(w, e) && |Step(w, e).conns| <= |w.conns| + 1
  {
    var w' := Step(w, e);
    forall u, i | i in Of(w'.reg.connections, u) ensures i <= w'.reg.nextID {
      assert i in Of(w.reg.connections, u) || i == NextId(w.reg);
    }
  }

  function ManyBegins(n: nat): (events: seq<Event>)
    ensures |events| == n
  {
    seq(n, i requires 0 <= i < n => Begin("a"))
  }

  /** The identifiers handed out so far, when no connection of the user has ended. */
  ghost predicate Filled(r: Registry, n: nat) {
    && r.nextID == n % WRAP
    && (n > 0 ==> 1 in Of(r.connections, "a"))
    && (n < WRAP ==> forall i <- Of(r.connections, "a") :: 1 <= i <= n)
  }

  lemma OneMoreFills(w: World, n: nat)
    requires n < WRAP && Filled(w.reg, n)
    ensures !Collides(w, Begin("a")) && Filled(Step(w, Begin("a")).reg, n + 1)
  {
    assert NextId(w.reg) == (n + 1) % WRAP;
    forall i | i in Of(Step(w, Begin("a")).reg.connections, "a") && n + 1 < WRAP ensures 1 <= i <= n + 1 {
      assert i == NextId(w.reg) || i in Of(w.reg.connections, "a");
    }
  }

  /** When no connection of a user ever ends, the first one stays registered. */
  lemma {:induction false} FirstStaysOpen(n: nat)
    requires n <= WRAP
    ensures Filled(Run(ManyBegins(n)).reg, n) && NoCollision(ManyBegins(n))
  {
    if n > 0 {
      FirstStaysOpen(n - 1);
      assert ManyBegins(n)[..n - 1] == ManyBegins(n - 1);
      assert ManyBegins(n)[n - 1] == Begin("a");
      OneMoreFills(Run(ManyBegins(n - 1)), n - 1);
    }
  }

  /** One connection more than there are identifiers makes the count of its user wrong. */
  lemma WrapCollides()
    ensures !NoCollision(ManyBegins(0x1_0000_0000_0000_0001))
    ensures !ExactThroughout(ManyBegins(0x1_0000_0000_0000_0001))
  {
    var events := ManyBegins(WRAP + 1);
    assert events[..WRAP] == ManyBegins(WRAP);
    FirstStaysOpen(WRAP);
    CountsExactIff(events);
  }

  /** There the closure of the first connection ends the newest one. */
  lemma FirstFinishEndsNewest()
    ensures var newest := |Run(ManyBegins(WRAP)).conns|;
            exists older: nat | older != newest ::
              var after := Run(ManyBegins(WRAP) + [Begin("a")] + [FinishCall(older)]);
              newest in OpenOf(after, "a") && newest !in Of(after.reg.connections, "a").Values
  {
    FirstStaysOpen(WRAP);
    OlderFinishEndsNewer(ManyBegins(WRAP), "a");
  }

  lemma FinishClosesOne(w: World, h: nat, user: string)
    ensures OpenOf(Step(w, FinishCall(h)), user) == OpenOf(w, user) - {h}
  {
    var w' := Step(w, FinishCall(h));
    assert |w'.conns| == |w.conns|;
    assert forall g: nat | g < |w.conns| && g != h :: w'.conns[g] == w.conns[g];
  }

  /**
   A finish, however late or repeated, ends at most its own connection: the open set of
   every user loses that begin and nothing else, so never a newer connection.
   */
  lemma FinishEndsOnlyItself(events: seq<Event>, h: nat, user: string)
    requires NoCollision(events)
    ensures var w, w' := Run(events), Run(events + [FinishCall(h)]);
            && OpenOf(w', user) == OpenOf(w, user) - {h}
            && Of(w'.reg.connections, user).Values == OpenOf(w, user) - {h}
  {
    assert (events + [FinishCall(h)])[..|events|] == events;
    RunHolds(events);
    FinishKeeps(Run(events), h);
    FinishClosesOne(Run(events), h, user);
    ValuesAreOpen(Step(Run(events), FinishCall(h)), user);
  }

  lemma ValuesAreOpen(w: World, user: string)
    requires Holds(w)
    ensures Of(w.reg.connections, user).Values == OpenOf(w, user)
  {
    forall h | h in OpenOf(w, user) ensures h in Of(w.reg.connections, user).Values {
      assert w.conns[h].id in Of(w.reg.connections, user);
    }
    forall h | h in Of(w.reg.connections, user).Values ensures h in OpenOf(w, user) {
      var i :| i in Of(w.reg.connections, user) && Of(w.reg.connections, user)[i] == h;
    }
  }

  /**
   After a collision the first call of the older closure removes the newer connection: both
   are open under one identifier, the registry knows only the newer, and loses it.
   */
  lemma OlderFinishEndsNewer(events: seq<Event>, user: string)
    requires NoCollision(events) && Collides(Run(events), Begin(user))
    ensures var w := Run(events);
            var older, newer := Of(w.reg.connections, user)[NextId(w.reg)], |w.conns|;
            var both, after := Run(events + [Begin(user)]), Run(events + [Begin(user)] + [FinishCall(older)]);
            && older != newer && older in OpenOf(both, user) && newer in OpenOf(both, user)
            && Of(both.reg.connections, user)[NextId(w.reg)] == newer
            && newer in OpenOf(after, user) && NextId(w.reg) !in Of(after.reg.connections, user)
            && newer !in Of(after.reg.connections, user).Values
  {
    RunHolds(events);
    var w := Run(events);
    var older := Of(w.reg.connections, user)[NextId(w.reg)];
    assert (events + [Begin(user)])[..|events|] == events;
    assert (events + [Begin(user)] + [FinishCall(older)])[..|events| + 1] == events + [Begin(user)];
    OlderFinish(w, user, older);
  }

  lemma OlderFinish(w: World, user: string, older: nat)
    requires Holds(w) && Collides(w, Begin(user)) && older == Of(w.reg.connections, user)[NextId(w.reg)]
    ensures var newer, both := |w.conns|, Step(w, Begin(user));
            var after := Step(both, FinishCall(older));
            && older != newer && older in OpenOf(both, user) && newer in OpenOf(both, user)
            && Of(both.reg.connections, user)[NextId(w.reg)] == newer
            && newer in OpenOf(after, user) && NextId(w.reg) !in Of(after.reg.connections, user)
            && newer !in Of(after.reg.connections, user).Values
  {
    var newer, both := |w.conns|, Step(w, Begin(user));
    var after := Step(both, FinishCall(older));
    assert IsOpen(w, older) && w.conns[older].id == NextId(w.reg);
    assert both.conns[older] == w.conns[older] && both.conns[newer] == Conn(user, NextId(w.reg), false);
    assert after.conns[newer] == both.conns[newer];
    assert Of(after.reg.connections, user) == Of(both.reg.connections, user) - {NextId(w.reg)};
    forall i | i in Of(after.reg.connections, user) ensures Of(after.reg.connections, user)[i] != newer {
      assert i in Of(w.reg.connections, user) && IsOpen(w, Of(w.reg.connections, user)[i]);
    }
  }

  /** The registry holds exactly the open begins of every user. */
  ghost predicate Registers(w: World) {
    forall u | u != "" :: Of(w.reg.connections, u).Values == OpenOf(w, u)
  }

  ghost predicate RegistersThroughout(events: seq<Event>) {
    Registers(Run(events)) && (events != [] ==> RegistersThroughout(events[..|events| - 1]))
  }

  /** A begin that collides leaves its older namesake open but unknown to the registry. */
  lemma CollisionForgets(w: World, e: Event)
    requires Holds(w) && Collides(w, e)
    ensures !Registers(Step(w, e))
  {
    var older, w' := Of(w.reg.connections, e.user)[NextId(w.reg)], Step(w, e);
    assert IsOpen(w, older) && w.conns[older].id == NextId(w.reg) && w'.conns[older] == w.conns[older];
    assert older in OpenOf(w', e.user);
    forall i | i in Of(w'.reg.connections, e.user) ensures Of(w'.reg.connections, e.user)[i] != older {
      if i != NextId(w.reg) {
        assert w.conns[Of(w.reg.connections, e.user)[i]].id == i;
      }
    }
    assert older !in Of(w'.reg.connections, e.user).Values;
  }

  lemma HoldsRegisters(w: World)
    requires Holds(w)
    ensures Registers(w)
  {
    forall u | u != "" ensures Of(w.reg.connections, u).Values == OpenOf(w, u) {
      ValuesAreOpen(w, u);
    }
  }

  /**
   No finish ever ends a connection but its own, nor forgets one, exactly when no begin of
   the run collides.
   */
  lemma {:induction false} RegistersIff(events: seq<Event>)
    ensures RegistersThroughout(events) <==> NoCollision(events)
  {
    if events == [] {
      HoldsRegisters(EMPTY);
    } else {
      var before := events[..|events| - 1];
      RegistersIff(before);
      if NoCollision(events) {
        RunHolds(events);
        HoldsRegisters(Run(events));
      } else if NoCollision(before) {
        RunHolds(before);
        CollisionForgets(Run(before), events[|events| - 1]);
      }
    }
  }

  /** A disconnect cancels exactly the connections open at its lock and changes no count. */
  lemma DisconnectCancelsOpen(events: seq<Event>, user: string)
    requires NoCollision(events)
    ensures var w, w' := Run(events), Run(events + [Disconnect(user)]);
            && w'.cancelled == w.cancelled + OpenOf(w, user)
            && w'.reg == w.reg && w'.conns == w.conns
  {
    assert (events + [Disconnect(user)])[..|events|] == events;
    RunHolds(events);
    ValuesAreOpen(Run(events), user);
  }

  // ---------------------------------------------------------------- the summary

  /** All open connections, over all users. */
  function OpenTotal(conns: seq<Conn>): nat {
    if conns == [] then 0
    else
      var c := conns[|conns| - 1];
      OpenTotal(conns[..|conns| - 1]) + if c.user != "" && !c.fired then 1 else 0
  }

  lemma {:induction false} FiringTotal(conns: seq<Conn>, h: nat)
    requires h < |conns| && !conns[h].fired
    ensures OpenTotal(conns) == OpenTotal(conns[h := conns[h].(fired := true)]) + if conns[h].user != "" then 1 else 0
  {
    var after := conns[h := conns[h].(fired := true)];
    var n := |conns| - 1;
    if h < n {
      FiringTotal(conns[..n], h);
      assert after[..n] == conns[..n][h := conns[h].(fired := true)];
    } else {
      assert after[..n] == conns[..n];
    }
  }

  lemma TotalSplit(c: Connections, user: string)
    ensures Total(c, c.Keys) == Count(c, user) + Total(c, c.Keys - {user})
  {
    if user in c {
      TotalTakes(c, c.Keys, user);
    } else {
      assert c.Keys - {user} == c.Keys;
    }
  }

  /** Changing the table of one user changes the total by the change of that user's count. */
  lemma TotalOfUpdate(c: Connections, d: Connections, user: string)
    requires c - {user} == d - {user}
    ensures Total(d, d.Keys) + Count(c, user) == Total(c, c.Keys) + Count(d, user)
  {
    TotalSplit(c, user);
    TotalSplit(d, user);
    assert c.Keys - {user} == (c - {user}).Keys == d.Keys - {user};
    forall u | u in c.Keys - {user} ensures c[u] == d[u] {
      assert c[u] == (c - {user})[u] && d[u] == (d - {user})[u];
    }
    TotalFrame(c, d, c.Keys - {user});
  }

  lemma OpenedTotal(r: Registry, user: string, cancel: nat)
    requires NextId(r) !in Of(r.connections, user)
    ensures var c := Opened(r, user, cancel).connections;
            Total(c, c.Keys) == Total(r.connections, r.connections.Keys) + 1
  {
    var c := Opened(r, user, cancel).connections;
    assert c - {user} == r.connections - {user};
    TotalOfUpdate(r.connections, c, user);
    GrowsByOne(Of(r.connections, user), NextId(r), cancel);
  }

  lemma BeginTotal(w: World, user: string)
    requires !Collides(w, Begin(user)) && user != ""
    requires Total(w.reg.connections, w.reg.connections.Keys) == OpenTotal(w.conns)
    ensures var w' := Step(w, Begin(user)); Total(w'.reg.connections, w'.reg.connections.Keys) == OpenTotal(w'.conns)
  {
    OpenedTotal(w.reg, user, |w.conns|);
    assert Step(w, Begin(user)).conns[..|w.conns|] == w.conns;
  }

  lemma FinishTotal(w: World, h: nat)
    requires Holds(w) && IsOpen(w, h)
    requires Total(w.reg.connections, w.reg.connections.Keys) == OpenTotal(w.conns)
    ensures var w' := Step(w, FinishCall(h)); Total(w'.reg.connections, w'.reg.connections.Keys) == OpenTotal(w'.conns)
  {
    var w' := Step(w, FinishCall(h));
    var c := w.conns[h];
    FiringTotal(w.conns, h);
    assert w'.reg.connections - {c.user} == w.reg.connections - {c.user};
    TotalOfUpdate(w.reg.connections, w'.reg.connections, c.user);
    MapShrinks(Of(w.reg.connections, c.user), c.id);
  }

  lemma {:induction false} TotalExact(events: seq<Event>)
    requires NoCollision(events)
    ensures var w := Run(events); Total(w.reg.connections, w.reg.connections.Keys) == OpenTotal(w.conns)
  {
    if events != [] {
      var before := events[..|events| - 1];
      var w := Run(before);
      TotalExact(before);
      RunHolds(before);
      match events[|events| - 1]
      case Begin(user) =>
        if user == "" {
          assert Step(w, Begin(user)).conns[..|w.conns|] == w.conns;
        } else {
          BeginTotal(w, user);
        }
      case FinishCall(h) =>
        if IsOpen(w, h) {
          FinishTotal(w, h);
        } else if h < |w.conns| && !w.conns[h].fired {
          FiringTotal(w.conns, h);
        }
      case Disconnect(_) =>
    }
  }

  /**
   The summary reports exactly the users whose begins outnumber the first calls of their
   closures, and the number of open connections.
   */
  lemma SummaryExact(events: seq<Event>)
    requires NoCollision(events)
    ensures var w := Run(events);
            && Total(w.reg.connections, w.reg.connections.Keys) == OpenTotal(w.conns)
            && forall u :: u in ActiveUsers(w.reg.connections)
                           <==> u != "" && Begins(w.conns, u) > FirstFinishes(w.conns, u)
  {
    TotalExact(events);
    RunHolds(events);
    var w := Run(events);
    forall u
      ensures u in ActiveUsers(w.reg.connections) <==> u != "" && Begins(w.conns, u) > FirstFinishes(w.conns, u)
    {
      assert u in ActiveUsers(w.reg.connections) <==> Count(w.reg.connections, u) > 0;
    }
  }
}
