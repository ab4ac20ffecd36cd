/**
 Runs of the cleaner's worker.  Every event runs one stretch of one handler, delivers one
 storage read, moves the serialized chain on, or ends the worker; any order of events is
 a run.  Tokens are random, so an issued token is taken to be one never issued before.
 */
module CleanerRuns {
  import opened Wrappers
  import opened CleanerCore
  import opened CleanerTheorems
  import opened CleanerWorker
  import opened CleanerTraces

  /**
   `did[i]` is what task `i` has done so far, `made` what every preview issued; both are
   history.  `serial` is the operation the serialized chain waits for.
   */
  datatype World = World(
    sh: Shared, tasks: seq<Task>, did: seq<seq<Effect>>, queue: seq<Op>, serial: Option<nat>, made: map<Token, Made>)

  datatype Event =
    | Posted(m: Message)
    | Queued(op: Op)
    | ChainMoves
    | StorageAnswers(i: nat, ok: bool)
    | Resumed(i: nat, x: Input)
    | Killed

  // ---------------------------------------------------------------- steps

  ghost predicate Shaped(w: World) {
    |w.tasks| == |w.did| && (w.serial.Some? ==> w.serial.value < |w.tasks|)
  }

  function Land(w: World, i: nat, n: Next): World
    requires i < |w.tasks| == |w.did|
  {
    w.(sh := n.sh, tasks := w.tasks[i := n.task], did := w.did[i := w.did[i] + n.effects])
  }

  function Spawn(w: World): World {
    w.(tasks := w.tasks + [Done], did := w.did + [[]])
  }

  predicate ChainFree(w: World)
    requires w.serial.Some? ==> w.serial.value < |w.tasks|
  {
    w.serial.None? || w.tasks[w.serial.value].Done?
  }

  function MadeBy(made: map<Token, Made>, t: Task, x: Input): map<Token, Made> {
    if t.PreviewTab? && TicketFor(t.settings, t.msg, x).Some? then
      made[x.token := MadeOf(t.settings, t.msg, x, TicketFor(t.settings, t.msg, x).value.plan)]
    else made
  }

  function StepPosted(w: World, m: Message): World
    requires |w.tasks| == |w.did|
  {
    Land(Spawn(w), |w.tasks|, Post(w.sh, m))
  }

  function StepChain(w: World): World
    requires Shaped(w)
  {
    if w.queue == [] || !ChainFree(w) then w
    else Land(Spawn(w).(queue := w.queue[1..], serial := Some(|w.tasks|)), |w.tasks|, StartOp(w.sh, w.queue[0]))
  }

  function StepRead(w: World, i: nat, ok: bool): World {
    if i >= |w.tasks| then w
    else w.(tasks := w.tasks[i := Sampled(w.tasks[i], if ok then Got(w.sh.stored) else ReadFailed)])
  }

  function StepResumed(w: World, i: nat, x: Input): World
    requires |w.tasks| == |w.did|
  {
    if i >= |w.tasks| || (w.tasks[i].PreviewTab? && x.token in w.made) then w
    else Land(w, i, Resume(w.sh, w.tasks[i], x)).(made := MadeBy(w.made, w.tasks[i], x))
  }

  /** The browser ends the worker at any moment: storage stays, the module variables are new. */
  function StepKilled(w: World): World {
    w.(sh := w.sh.(tickets := map[], running := false), tasks := seq(|w.tasks|, _ => Done), queue := [], serial := None)
  }

  function Step(w: World, e: Event): (r: World)
    requires Shaped(w)
    ensures Shaped(r) && |w.tasks| <= |r.tasks|
  {
    match e
    case Posted(m) => StepPosted(w, m)
    case Queued(op) => w.(queue := w.queue + [op])
    case ChainMoves => StepChain(w)
    case StorageAnswers(i, ok) => StepRead(w, i, ok)
    case Resumed(i, x) => StepResumed(w, i, x)
    case Killed => StepKilled(w)
  }

  function Run(w: World, events: seq<Event>): (r: World)
    requires Shaped(w)
    ensures Shaped(r) && |w.tasks| <= |r.tasks|
  {
    if events == [] then w else Step(Run(w, events[..|events| - 1]), events[|events| - 1])
  }

  lemma {:induction false} RunConcat(w: World, a: seq<Event>, b: seq<Event>)
    requires Shaped(w)
    ensures Run(w, a + b) == Run(Run(w, a), b)
  {
    if b == [] {
      assert a + b == a;
    } else {
      var before, last := b[..|b| - 1], b[|b| - 1];
      assert (a + b)[..|a + b| - 1] == a + before && (a + b)[|a + b| - 1] == last;
      RunConcat(w, a, before);
    }
  }

  lemma RunFirst(w: World, e: Event, rest: seq<Event>)
    requires Shaped(w)
    ensures Run(w, [e] + rest) == Run(Step(w, e), rest)
  {
    RunConcat(w, [e], rest);
    assert [e][..0] == [];
  }

  // ---------------------------------------------------------------- the invariant

  ghost predicate LocalsOk(w: World)
    requires Shaped(w)
  {
    forall i | 0 <= i < |w.tasks| :: TaskOk(w.tasks[i], w.did[i], w.made)
  }

  /** At most one cleanup body runs, and `running` says whether one does. */
  ghost predicate BodiesOk(running: bool, tasks: seq<Task>) {
    && (forall i | 0 <= i < |tasks| :: InBody(tasks[i]) ==> running)
    && (forall i, j | 0 <= i < j < |tasks| :: !InBody(tasks[i]) || !InBody(tasks[j]))
    && (running ==> exists i :: 0 <= i < |tasks| && InBody(tasks[i]))
  }

  /** Waits that only an operation of the serialized chain has. */
  predicate Chained(t: Task) {
    || t.AutoRead? || t.AutoReview? || t.SaveWrite? || t.SaveSync? || t.SyncRead? || t.SyncWrite? || t.InstallRead?
    || (InBody(t) && t.job.why.Automatic?) || (t.Configuring? && t.automatic)
  }

  predicate Holds(got: Option<Sample>, stored: Option<Settings>) {
    got.Some? && got.value.Got? ==> got.value.stored == stored
  }

  /** What an automatic cleanup read is still what is stored, and enabled. */
  predicate StillOk(t: Task, stored: Option<Settings>) {
    && (t.AutoRead? ==> Holds(t.got, stored))
    && (InBody(t) && t.job.why.Automatic? ==> Enabled(Got(stored)) && (t.Checking? ==> Holds(t.got, stored)))
  }

  ghost predicate ChainOk(stored: Option<Settings>, tasks: seq<Task>, serial: Option<nat>) {
    forall i: nat | i < |tasks| :: Chained(tasks[i]) ==> serial == Some(i) && StillOk(tasks[i], stored)
  }

  function TokenOfWhy(why: Why): Option<Token> {
    if why.Automatic? then None else Some(why.token)
  }

  /** The ticket a task has taken. */
  function TokenOf(t: Task, did: seq<Effect>): Option<Token> {
    if t.ExecRead? || t.ExecTab? then TokenOfWhy(t.pick.why)
    else if did != [] && did[0].Started? then TokenOfWhy(did[0].why)
    else None
  }

  ghost predicate TokensOk(w: World)
    requires Shaped(w)
  {
    && (forall i | 0 <= i < |w.tasks| :: Away(TokenOf(w.tasks[i], w.did[i]), w.sh.tickets, w.made))
    && (forall i, j | 0 <= i < j < |w.tasks| :: Apart(TokenOf(w.tasks[i], w.did[i]), TokenOf(w.tasks[j], w.did[j])))
  }

  predicate Away(token: Option<Token>, tickets: map<Token, Ticket>, made: map<Token, Made>) {
    token.Some? ==> token.value !in tickets && token.value in made
  }

  predicate Apart(a: Option<Token>, b: Option<Token>) {
    a.Some? && b.Some? ==> a != b
  }

  ghost predicate Inv(w: World) {
    && Shaped(w)
    && LocalsOk(w)
    && TicketsOk(w.sh.tickets, w.made)
    && BodiesOk(w.sh.running, w.tasks)
    && ChainOk(w.sh.stored, w.tasks, w.serial)
    && TokensOk(w)
  }

  // ---------------------------------------------------------------- facts about one stretch

  ghost predicate TurnOk(sh: Shared, t: Task, n: Next) {
    || (InBody(n.task) == InBody(t) && n.sh.running == sh.running)
    || (!InBody(t) && !sh.running && InBody(n.task) && n.sh.running)
    || (InBody(t) && !InBody(n.task) && !n.sh.running)
  }

  ghost predicate LockKept(sh: Shared, t: Task, n: Next) {
    && (n.sh.stored != sh.stored ==> Chained(t))
    && (Chained(n.task) ==> Chained(t))
    && (Chained(t) && StillOk(t, sh.stored) ==> StillOk(n.task, n.sh.stored))
  }

  ghost predicate TicketsFrom(sh: Shared, more: map<Token, Ticket>, made: map<Token, Made>, x: Input) {
    forall token <- more :: token in sh.tickets || (token == x.token && token !in made)
  }

  ghost predicate TokenFrom(sh: Shared, before: Option<Token>, n: Next, after: Option<Token>) {
    after.None? || after == before || (after.value in sh.tickets && after.value !in n.sh.tickets)
  }

  lemma NewTicket(token: Token, k: Ticket, m: Made, made: map<Token, Made>)
    requires token !in made && Issues(k, m) && MadeOk(m)
    ensures TicketsOk(map[token := k], made[token := m]) && Extends(made, made[token := m])
  {
    assert (map[token := k]).Keys == {token};
  }

  lemma HeldTicket(n: Next, token: Token, m: Made, more: map<Token, Made>)
    requires n.effects == [] && (n.task == Done || n.task == CleanGot(token, m.plan))
    requires token in more && more[token] == m
    ensures NextOk(n, [], more)
  {
    IdleOk(n, more);
  }

  lemma IssuedShape(sh: Shared, t: Task, x: Input, made: map<Token, Made>, k: Ticket)
    requires t.PreviewTab? && TicketFor(t.settings, t.msg, x) == Some(k)
    ensures var n := PreviewIssued(sh, t, x);
            && n.sh.tickets == map[x.token := k] && n.effects == []
            && (n.task == Done || n.task == CleanGot(x.token, k.plan))
    ensures MadeBy(made, t, x) == made[x.token := MadeOf(t.settings, t.msg, x, k.plan)]
  {}

  lemma IssuedSome(sh: Shared, t: Task, x: Input, made: map<Token, Made>)
    requires t.PreviewTab? && x.token !in made && TicketFor(t.settings, t.msg, x).Some?
    ensures var n, more := PreviewIssued(sh, t, x), MadeBy(made, t, x);
            NextOk(n, [], more) && TicketsOk(n.sh.tickets, more) && Extends(made, more)
  {
    TicketForOk(t.settings, t.msg, x);
    var k := TicketFor(t.settings, t.msg, x).value;
    var m := MadeOf(t.settings, t.msg, x, k.plan);
    IssuedShape(sh, t, x, made, k);
    NewTicket(x.token, k, m, made);
    HeldTicket(PreviewIssued(sh, t, x), x.token, m, made[x.token := m]);
  }

  lemma IssuedOk(sh: Shared, t: Task, x: Input, made: map<Token, Made>)
    requires t.PreviewTab? && x.token !in made && TicketsOk(sh.tickets, made)
    ensures var n, more := PreviewIssued(sh, t, x), MadeBy(made, t, x);
            NextOk(n, [], more) && TicketsOk(n.sh.tickets, more) && Extends(made, more)
  {
    if TicketFor(t.settings, t.msg, x).Some? {
      IssuedSome(sh, t, x, made);
    } else {
      IdleOk(PreviewIssued(sh, t, x), MadeBy(made, t, x));
    }
  }

  lemma BodyTickets(sh: Shared, t: Task, x: Input)
    requires InBody(t)
    ensures var n := BodyStretch(sh, t, x);
            && n.sh.tickets == sh.tickets && n.sh.stored == sh.stored
            && (InBody(n.task) ==> n.sh.running == sh.running && n.task.job.why == t.job.why)
            && (!InBody(n.task) ==> !n.sh.running && n.task == Configuring(t.job.why.Automatic?))
  {}

  /** Stretches that only read, write storage or queue a review. */
  predicate Plain(t: Task) {
    !InBody(t) && !t.PreviewTab? && !t.CleanGot? && !t.ExecRead? && !t.ExecTab? && !t.AutoRead?
  }

  lemma PlainOk(sh: Shared, t: Task, x: Input)
    requires Plain(t)
    ensures var n := Resume(sh, t, x);
            && n.effects == [] && (Plain(n.task) || n.task.PreviewTab?) && (!BeforeBody(t) ==> n.task.Done?)
            && (n.sh.tickets == sh.tickets || n.sh.tickets == map[]) && n.sh.running == sh.running
  {}

  lemma CleanGotOk(sh: Shared, t: Task, x: Input, made: map<Token, Made>)
    requires t.CleanGot? && HoldOk(t, made) && TicketsOk(sh.tickets, made)
    ensures NextOk(Resume(sh, t, x), [], made)
  {
    if t.plan.automaticSafe {
      assert Resume(sh, t, x) == Execute(sh, OneClick(t.token), true, x.now);
      ExecuteOk(sh, OneClick(t.token), true, x.now, made);
    } else {
      IdleOk(Resume(sh, t, x), made);
    }
  }

  lemma ExecTabOk(sh: Shared, t: Task, x: Input, made: map<Token, Made>)
    requires t.ExecTab? && HoldOk(t, made)
    ensures NextOk(Resume(sh, t, x), [], made)
  {
    assert Resume(sh, t, x) == ExecuteTabbed(sh, t.pick, t.read, x.tab);
    TabbedOk(sh, t.pick, t.read, x.tab, made);
  }

  lemma ExecReadOk(sh: Shared, t: Task, x: Input, made: map<Token, Made>)
    requires t.ExecRead? && HoldOk(t, made)
    ensures NextOk(Resume(sh, t, x), [], made)
  {
    if t.got.None? {
      IdleOk(Resume(sh, t, x), made);
    } else {
      assert Resume(sh, t, x) == ExecuteCompared(sh, t.pick, t.got.value);
      ComparedOk(sh, t.pick, t.got.value, made);
    }
  }

  lemma AutoReadOk(sh: Shared, t: Task, x: Input, made: map<Token, Made>)
    requires t.AutoRead?
    ensures NextOk(Resume(sh, t, x), [], made)
  {
    if t.got.None? {
      IdleOk(Resume(sh, t, x), made);
    } else {
      assert Resume(sh, t, x) == AutomateRead(sh, t.source, t.got.value, x);
      AutomateOk(sh, t.source, t.got.value, x, made);
    }
  }

  lemma ActiveOk(sh: Shared, t: Task, x: Input, made: map<Token, Made>)
    requires HoldOk(t, made) && TicketsOk(sh.tickets, made)
    requires t.CleanGot? || t.ExecRead? || t.ExecTab? || t.AutoRead?
    ensures NextOk(Resume(sh, t, x), [], made)
  {
    if t.CleanGot? {
      CleanGotOk(sh, t, x, made);
    } else if t.ExecTab? {
      ExecTabOk(sh, t, x, made);
    } else if t.ExecRead? {
      ExecReadOk(sh, t, x, made);
    } else {
      AutoReadOk(sh, t, x, made);
    }
  }

  lemma ActiveTickets(sh: Shared, t: Task, x: Input)
    requires t.CleanGot? || t.ExecRead? || t.ExecTab? || t.AutoRead?
    ensures var n := Resume(sh, t, x);
            n.sh.tickets == sh.tickets || (t.CleanGot? && n.sh.tickets == sh.tickets - {t.token})
  {}

  lemma WaitingTickets(sh: Shared, t: Task, x: Input, made: map<Token, Made>)
    requires TicketsOk(sh.tickets, made) && !InBody(t) && !t.PreviewTab?
    ensures TicketsOk(Resume(sh, t, x).sh.tickets, made)
  {
    if Plain(t) {
      PlainOk(sh, t, x);
    } else {
      ActiveTickets(sh, t, x);
      if t.CleanGot? {
        RemoveKey(sh.tickets, t.token);
      }
    }
  }

  lemma WaitingOk(sh: Shared, t: Task, x: Input, did: seq<Effect>, made: map<Token, Made>)
    requires TaskOk(t, did, made) && TicketsOk(sh.tickets, made) && !InBody(t) && !t.PreviewTab?
    ensures NextOk(Resume(sh, t, x), did, made)
  {
    if Plain(t) {
      PlainOk(sh, t, x);
      KeptQuiet(Resume(sh, t, x), did);
    } else {
      ActiveOk(sh, t, x, made);
    }
  }

  lemma BodyOk(sh: Shared, t: Task, x: Input, did: seq<Effect>, made: map<Token, Made>)
    requires TaskOk(t, did, made) && InBody(t)
    ensures NextOk(BodyStretch(sh, t, x), did, made) && BodyStretch(sh, t, x).sh.tickets == sh.tickets
  {
    BodyKeeps(sh, t, x, did);
    BodyTickets(sh, t, x);
    StartedStays(did, BodyStretch(sh, t, x).effects, made);
  }

  lemma ResumeOk(sh: Shared, t: Task, x: Input, did: seq<Effect>, made: map<Token, Made>)
    requires TaskOk(t, did, made) && TicketsOk(sh.tickets, made)
    requires t.PreviewTab? ==> x.token !in made
    ensures var n, more := Resume(sh, t, x), MadeBy(made, t, x);
            NextOk(n, did, more) && TicketsOk(n.sh.tickets, more) && Extends(made, more)
  {
    if InBody(t) {
      BodyOk(sh, t, x, did, made);
    } else if t.PreviewTab? {
      IssuedOk(sh, t, x, made);
    } else {
      WaitingOk(sh, t, x, did, made);
      WaitingTickets(sh, t, x, made);
    }
  }

  lemma StartedStays(did: seq<Effect>, effects: seq<Effect>, made: map<Token, Made>)
    requires did != [] && StartedOk(did, made)
    ensures StartedOk(did + effects, made)
  {
    assert (did + effects)[0] == did[0];
  }

  // ---------------------------------------------------------------- the lock, the chain and the tokens in one stretch

  lemma ResumeTurn(sh: Shared, t: Task, x: Input)
    ensures TurnOk(sh, t, Resume(sh, t, x))
  {
    if InBody(t) {
      BodyTickets(sh, t, x);
    } else if Plain(t) {
      PlainOk(sh, t, x);
    }
  }

  predicate AutoNext(sh: Shared, n: Next) {
    && n.sh.stored == sh.stored && n.sh.tickets == sh.tickets
    && !n.task.AutoRead? && !n.task.ExecRead? && !n.task.ExecTab?
    && (n.task.Checking? ==> n.task.got.None?)
    && (n.effects == [] ==> !InBody(n.task))
    && (n.effects != [] ==> n.effects[0].Started? && n.effects[0].why.Automatic? && n.effects[0].pick.None?)
  }

  lemma BeginLock(sh: Shared, job: Job, read: Option<Settings>)
    requires job.why.Automatic?
    ensures AutoNext(sh, Begin(sh, job, None, read, None))
  {}

  lemma SelectedLock(sh: Shared, source: Source, p: Preset, read: Settings, x: Input)
    ensures AutoNext(sh, AutomateSelected(sh, source, p, read, x))
  {
    var plan := PlanFor(Some(RawOfPreset(p)), NotAUrl, x.later);
    if plan.Ok? {
      BeginLock(sh, Job(plan.value.(reload := false), None, Automatic(source, p, x.later), []), Some(read));
    }
  }

  lemma AutomateLock(sh: Shared, source: Source, s: Sample, x: Input)
    ensures AutoNext(sh, AutomateRead(sh, source, s, x))
    ensures InBody(AutomateRead(sh, source, s, x).task) ==> Enabled(s)
  {
    var r := ReadOf(s);
    if r.Ok? && FindPreset(r.value, r.value.automation.presetId).Some? {
      SelectedLock(sh, source, FindPreset(r.value, r.value.automation.presetId).value, r.value, x);
    }
  }

  lemma BodyLock(sh: Shared, t: Task, x: Input)
    requires InBody(t)
    ensures LockKept(sh, t, BodyStretch(sh, t, x))
  {
    BodyTickets(sh, t, x);
  }

  lemma ManualLock(sh: Shared, t: Task, x: Input)
    requires t.PreviewTab? || t.CleanGot? || t.ExecRead? || t.ExecTab?
    requires t.ExecRead? || t.ExecTab? ==> !t.pick.why.Automatic?
    ensures LockKept(sh, t, Resume(sh, t, x))
  {}

  lemma PlainLock(sh: Shared, t: Task, x: Input)
    requires Plain(t)
    ensures LockKept(sh, t, Resume(sh, t, x))
  {}

  lemma ResumeLock(sh: Shared, t: Task, x: Input)
    requires t.ExecRead? || t.ExecTab? ==> !t.pick.why.Automatic?
    ensures LockKept(sh, t, Resume(sh, t, x))
  {
    if InBody(t) {
      BodyLock(sh, t, x);
    } else if Plain(t) {
      PlainLock(sh, t, x);
    } else if t.AutoRead? {
      if t.got.Some? {
        AutomateLock(sh, t.source, t.got.value, x);
      }
    } else {
      ManualLock(sh, t, x);
    }
  }

  ghost predicate TokensMove(sh: Shared, t: Task, x: Input, did: seq<Effect>, made: map<Token, Made>, n: Next) {
    && TicketsFrom(sh, n.sh.tickets, made, x)
    && TokenFrom(sh, TokenOf(t, did), n, TokenOf(n.task, did + n.effects))
  }

  lemma BodyTokens(sh: Shared, t: Task, x: Input, did: seq<Effect>, made: map<Token, Made>)
    requires InBody(t) && Linked(t, did)
    ensures TokensMove(sh, t, x, did, made, BodyStretch(sh, t, x))
  {
    BodyTickets(sh, t, x);
    var n := BodyStretch(sh, t, x);
    assert (did + n.effects)[0] == did[0];
  }

  lemma ManualTokens(sh: Shared, t: Task, x: Input, made: map<Token, Made>)
    requires t.PreviewTab? || t.CleanGot? || t.ExecRead? || t.ExecTab?
    requires t.PreviewTab? ==> x.token !in made
    ensures TokensMove(sh, t, x, [], made, Resume(sh, t, x))
  {}

  lemma ResumeTokens(sh: Shared, t: Task, x: Input, did: seq<Effect>, made: map<Token, Made>)
    requires Linked(t, did)
    requires t.PreviewTab? ==> x.token !in made
    ensures TokensMove(sh, t, x, did, made, Resume(sh, t, x))
  {
    if InBody(t) {
      BodyTokens(sh, t, x, did, made);
    } else if Plain(t) {
      PlainOk(sh, t, x);
      assert did + [] == did;
    } else if t.AutoRead? {
      if t.got.Some? {
        AutomateLock(sh, t.source, t.got.value, x);
      }
    } else {
      ManualTokens(sh, t, x, made);
    }
  }

  // ---------------------------------------------------------------- every event keeps the invariant

  lemma LandLocals(w: World, i: nat, n: Next, more: map<Token, Made>)
    requires Shaped(w) && i < |w.tasks| && LocalsOk(w) && Extends(w.made, more)
    requires NextOk(n, w.did[i], more)
    ensures LocalsOk(Land(w, i, n).(made := more))
  {
    var r := Land(w, i, n).(made := more);
    forall j | 0 <= j < |r.tasks| ensures TaskOk(r.tasks[j], r.did[j], r.made) {
      if j != i {
        TaskOkExtends(w.tasks[j], w.did[j], w.made, more);
      }
    }
  }

  lemma LandBodies(sh: Shared, tasks: seq<Task>, i: nat, n: Next)
    requires i < |tasks| && BodiesOk(sh.running, tasks) && TurnOk(sh, tasks[i], n)
    ensures BodiesOk(n.sh.running, tasks[i := n.task])
  {
    var after := tasks[i := n.task];
    assert after[i] == n.task;
    if n.sh.running && !InBody(n.task) {
      var j :| 0 <= j < |tasks| && InBody(tasks[j]);
      assert after[j] == tasks[j];
    }
  }

  lemma LandChain(w: World, i: nat, n: Next)
    requires i < |w.tasks| && ChainOk(w.sh.stored, w.tasks, w.serial)
    requires n.sh.stored != w.sh.stored ==> Chained(w.tasks[i])
    requires Chained(n.task) ==> w.serial == Some(i) && StillOk(n.task, n.sh.stored)
    ensures ChainOk(n.sh.stored, w.tasks[i := n.task], w.serial)
  {}

  ghost predicate TicketsMove(w: World, n: Next) {
    forall token <- n.sh.tickets :: token in w.sh.tickets || token !in w.made
  }

  lemma LandTokens(w: World, i: nat, n: Next, more: map<Token, Made>)
    requires Shaped(w) && i < |w.tasks| && TokensOk(w) && TicketsOk(w.sh.tickets, w.made) && Extends(w.made, more)
    requires TicketsMove(w, n)
    requires TokenFrom(w.sh, TokenOf(w.tasks[i], w.did[i]), n, TokenOf(n.task, w.did[i] + n.effects))
    ensures TokensOk(Land(w, i, n).(made := more))
  {
    var r := Land(w, i, n).(made := more);
    forall j | 0 <= j < |r.tasks| ensures Away(TokenOf(r.tasks[j], r.did[j]), r.sh.tickets, r.made) {
      assert Away(TokenOf(w.tasks[j], w.did[j]), w.sh.tickets, w.made);
    }
    forall j, k | 0 <= j < k < |r.tasks| ensures Apart(TokenOf(r.tasks[j], r.did[j]), TokenOf(r.tasks[k], r.did[k])) {
      assert Apart(TokenOf(w.tasks[j], w.did[j]), TokenOf(w.tasks[k], w.did[k]));
      assert Away(TokenOf(w.tasks[j], w.did[j]), w.sh.tickets, w.made);
      assert Away(TokenOf(w.tasks[k], w.did[k]), w.sh.tickets, w.made);
    }
  }

  /** One stretch of one task, given the facts about that stretch alone. */
  lemma LandKeepsInv(w: World, i: nat, n: Next, more: map<Token, Made>)
    requires Inv(w) && i < |w.tasks| && Extends(w.made, more)
    requires NextOk(n, w.did[i], more) && TicketsOk(n.sh.tickets, more)
    requires TurnOk(w.sh, w.tasks[i], n)
    requires n.sh.stored != w.sh.stored ==> Chained(w.tasks[i])
    requires Chained(n.task) ==> w.serial == Some(i) && StillOk(n.task, n.sh.stored)
    requires TicketsMove(w, n)
    requires TokenFrom(w.sh, TokenOf(w.tasks[i], w.did[i]), n, TokenOf(n.task, w.did[i] + n.effects))
    ensures Inv(Land(w, i, n).(made := more))
  {
    LandLocals(w, i, n, more);
    LandBodies(w.sh, w.tasks, i, n);
    LandChain(w, i, n);
    LandTokens(w, i, n, more);
  }

  lemma SpawnTokens(w: World)
    requires Shaped(w) && TokensOk(w)
    ensures TokensOk(Spawn(w))
  {
    var r := Spawn(w);
    assert TokenOf(r.tasks[|w.tasks|], r.did[|w.tasks|]) == None;
    assert forall i | 0 <= i < |w.tasks| :: r.tasks[i] == w.tasks[i] && r.did[i] == w.did[i];
  }

  lemma SpawnLocals(w: World)
    requires Shaped(w) && LocalsOk(w)
    ensures LocalsOk(Spawn(w))
  {
    var r := Spawn(w);
    forall i | 0 <= i < |r.tasks| ensures TaskOk(r.tasks[i], r.did[i], r.made) {
      if i < |w.tasks| {
        assert TaskOk(w.tasks[i], w.did[i], w.made);
      }
    }
  }

  lemma SpawnBodies(running: bool, tasks: seq<Task>)
    requires BodiesOk(running, tasks)
    ensures BodiesOk(running, tasks + [Done])
  {
    if running {
      var j :| 0 <= j < |tasks| && InBody(tasks[j]);
      assert InBody((tasks + [Done])[j]);
    }
  }

  lemma SpawnChain(w: World, serial: Option<nat>)
    requires Shaped(w) && ChainOk(w.sh.stored, w.tasks, w.serial)
    requires serial == w.serial || (ChainFree(w) && serial == Some(|w.tasks|))
    ensures ChainOk(w.sh.stored, w.tasks + [Done], serial)
  {}

  lemma SpawnKeepsInv(w: World, queue: seq<Op>, serial: Option<nat>)
    requires Inv(w)
    requires serial == w.serial || (ChainFree(w) && serial == Some(|w.tasks|))
    ensures Inv(Spawn(w).(queue := queue, serial := serial))
  {
    SpawnTokens(w);
    SpawnLocals(w);
    SpawnBodies(w.sh.running, w.tasks);
    SpawnChain(w, serial);
  }

  lemma PostShape(sh: Shared, m: Message)
    ensures var n := Post(sh, m);
            && n.effects == [] && n.sh.stored == sh.stored && n.sh.running == sh.running
            && (n.sh.tickets == sh.tickets || (m.ExecuteAsked? && n.sh.tickets == sh.tickets - {m.token}))
            && !InBody(n.task) && !Chained(n.task)
            && TokenFrom(sh, None, n, TokenOf(n.task, []))
  {}

  lemma PreviewPosted(sh: Shared, m: Message, made: map<Token, Made>)
    requires !m.ExecuteAsked?
    ensures NextOk(Post(sh, m), [], made) && Post(sh, m).sh == sh
  {
    IdleOk(Post(sh, m), made);
  }

  lemma ExecutePosted(sh: Shared, m: Message, made: map<Token, Made>)
    requires m.ExecuteAsked? && TicketsOk(sh.tickets, made)
    ensures NextOk(Post(sh, m), [], made) && TicketsOk(Post(sh, m).sh.tickets, made)
  {
    assert Post(sh, m) == Execute(sh, Confirmed(m.token), m.confirmed, m.now);
    ExecuteOk(sh, Confirmed(m.token), m.confirmed, m.now, made);
  }

  lemma PostOk(sh: Shared, m: Message, made: map<Token, Made>)
    requires TicketsOk(sh.tickets, made)
    ensures NextOk(Post(sh, m), [], made) && TicketsOk(Post(sh, m).sh.tickets, made)
  {
    if m.ExecuteAsked? {
      ExecutePosted(sh, m, made);
    } else {
      PreviewPosted(sh, m, made);
    }
  }

  lemma PostedKeepsInv(w: World, m: Message)
    requires Inv(w)
    ensures Inv(StepPosted(w, m))
  {
    var s, n := Spawn(w), Post(w.sh, m);
    SpawnKeepsInv(w, w.queue, w.serial);
    PostShape(w.sh, m);
    PostOk(w.sh, m, w.made);
    assert [] + n.effects == [];
    LandKeepsInv(s, |w.tasks|, n, w.made);
  }

  lemma StartShape(sh: Shared, op: Op)
    ensures var n := StartOp(sh, op);
            && n.effects == [] && n.sh.stored == sh.stored && n.sh.running == sh.running
            && (n.sh.tickets == sh.tickets || n.sh.tickets == map[])
            && !InBody(n.task) && StillOk(n.task, sh.stored) && TokenOf(n.task, []) == None
  {}

  lemma StartLocal(sh: Shared, op: Op, made: map<Token, Made>)
    ensures NextOk(StartOp(sh, op), [], made)
  {
    IdleOk(StartOp(sh, op), made);
  }

  lemma ChainKeepsInv(w: World)
    requires Inv(w)
    ensures Inv(StepChain(w))
  {
    if w.queue != [] && ChainFree(w) {
      var s := Spawn(w).(queue := w.queue[1..], serial := Some(|w.tasks|));
      SpawnKeepsInv(w, w.queue[1..], Some(|w.tasks|));
      var n := StartOp(w.sh, w.queue[0]);
      StartShape(w.sh, w.queue[0]);
      StartLocal(w.sh, w.queue[0], w.made);
      assert [] + n.effects == [];
      LandKeepsInv(s, |w.tasks|, n, w.made);
    }
  }

  lemma SampledSame(t: Task, s: Sample, did: seq<Effect>)
    ensures var r := Sampled(t, s);
            && InBody(r) == InBody(t) && BeforeBody(r) == BeforeBody(t) && (InBody(t) ==> r.job == t.job)
            && Chained(r) == Chained(t) && TokenOf(r, did) == TokenOf(t, did)
  {}

  lemma SampledStill(t: Task, s: Sample, stored: Option<Settings>)
    requires StillOk(t, stored) && (s.Got? ==> s.stored == stored)
    ensures StillOk(Sampled(t, s), stored)
  {}

  lemma SampledSent(t: Task, s: Sample, sent: nat)
    requires InBody(t)
    ensures InBody(Sampled(t, s)) && SentOk(Sampled(t, s), sent) == SentOk(t, sent)
  {}

  lemma SampledHold(t: Task, s: Sample, made: map<Token, Made>)
    requires HoldOk(t, made)
    ensures HoldOk(Sampled(t, s), made)
  {}

  lemma SampledKinds(t: Task, s: Sample)
    ensures Sampled(t, s).FailRecording? == t.FailRecording? && Sampled(t, s).Listing? == t.Listing?
  {}

  lemma SampledLinked(t: Task, r: Task, s: Sample, did: seq<Effect>)
    requires Linked(t, did) && r == Sampled(t, s)
    ensures Linked(r, did)
  {
    SampledSame(t, s, did);
    SampledKinds(t, s);
    if InBody(t) {
      SampledSent(t, s, |IssuedCalls(did)|);
    }
  }

  lemma SampledOk(t: Task, s: Sample, did: seq<Effect>, made: map<Token, Made>)
    requires TaskOk(t, did, made)
    ensures TaskOk(Sampled(t, s), did, made)
  {
    SampledLinked(t, Sampled(t, s), s, did);
    SampledHold(t, s, made);
  }

  lemma ReadKeepsInv(w: World, i: nat, ok: bool)
    requires Inv(w)
    ensures Inv(StepRead(w, i, ok))
  {
    if i < |w.tasks| {
      var s := if ok then Got(w.sh.stored) else ReadFailed;
      SampledSame(w.tasks[i], s, w.did[i]);
      SampledOk(w.tasks[i], s, w.did[i], w.made);
      if Chained(w.tasks[i]) {
        SampledStill(w.tasks[i], s, w.sh.stored);
      }
      var n := Next(w.sh, Sampled(w.tasks[i], s), []);
      assert w.did[i] + [] == w.did[i];
      LandKeepsInv(w, i, n, w.made);
      assert StepRead(w, i, ok).did == Land(w, i, n).did;
    }
  }

  lemma LandResumed(w: World, i: nat, x: Input, n: Next, more: map<Token, Made>)
    requires Inv(w) && i < |w.tasks| && Extends(w.made, more)
    requires NextOk(n, w.did[i], more) && TicketsOk(n.sh.tickets, more)
    requires TurnOk(w.sh, w.tasks[i], n) && LockKept(w.sh, w.tasks[i], n)
    requires TokensMove(w.sh, w.tasks[i], x, w.did[i], w.made, n)
    ensures Inv(Land(w, i, n).(made := more))
  {
    LandKeepsInv(w, i, n, more);
  }

  lemma ResumedKeepsInv(w: World, i: nat, x: Input)
    requires Inv(w)
    ensures Inv(StepResumed(w, i, x))
  {
    if i < |w.tasks| && (w.tasks[i].PreviewTab? ==> x.token !in w.made) {
      var t := w.tasks[i];
      assert TaskOk(t, w.did[i], w.made);
      ResumeOk(w.sh, t, x, w.did[i], w.made);
      ResumeTurn(w.sh, t, x);
      ResumeLock(w.sh, t, x);
      ResumeTokens(w.sh, t, x, w.did[i], w.made);
      LandResumed(w, i, x, Resume(w.sh, t, x), MadeBy(w.made, t, x));
    }
  }

  lemma KilledTask(t: Task, did: seq<Effect>, made: map<Token, Made>)
    requires TaskOk(t, did, made)
    ensures TaskOk(Done, did, made)
  {}

  lemma KilledLocals(w: World)
    requires Shaped(w) && LocalsOk(w)
    ensures LocalsOk(StepKilled(w))
  {
    forall i | 0 <= i < |w.tasks| ensures TaskOk(Done, w.did[i], w.made) {
      KilledTask(w.tasks[i], w.did[i], w.made);
    }
  }

  lemma KilledKeepsInv(w: World)
    requires Inv(w)
    ensures Inv(StepKilled(w))
  {
    KilledLocals(w);
    KilledTokens(w);
    assert |StepKilled(w).sh.tickets| == 0;
  }

  lemma DoneToken(t: Task, did: seq<Effect>)
    requires Linked(t, did)
    ensures TokenOf(Done, did).None? || TokenOf(Done, did) == TokenOf(t, did)
  {}

  /** Tasks only lose the tickets they hold. */
  lemma FewerTokens(w: World, r: World)
    requires Shaped(w) && Shaped(r) && TokensOk(w) && |r.tasks| == |w.tasks| && r.made == w.made
             && r.sh.tickets == map[]
    requires forall i | 0 <= i < |w.tasks| ::
               TokenOf(r.tasks[i], r.did[i]).None? || TokenOf(r.tasks[i], r.did[i]) == TokenOf(w.tasks[i], w.did[i])
    ensures TokensOk(r)
  {}

  lemma KilledTokens(w: World)
    requires Inv(w)
    ensures TokensOk(StepKilled(w))
  {
    forall i | 0 <= i < |w.tasks|
      ensures TokenOf(Done, w.did[i]).None? || TokenOf(Done, w.did[i]) == TokenOf(w.tasks[i], w.did[i])
    {
      assert TaskOk(w.tasks[i], w.did[i], w.made);
      DoneToken(w.tasks[i], w.did[i]);
    }
    FewerTokens(w, StepKilled(w));
  }

  lemma StepKeepsInv(w: World, e: Event)
    requires Inv(w)
    ensures Inv(Step(w, e))
  {
    match e
    case Posted(m) => PostedKeepsInv(w, m);
    case Queued(op) =>
    case ChainMoves => ChainKeepsInv(w);
    case StorageAnswers(i, ok) => ReadKeepsInv(w, i, ok);
    case Resumed(i, x) => ResumedKeepsInv(w, i, x);
    case Killed => KilledKeepsInv(w);
  }

  lemma {:induction false} RunKeepsInv(w: World, events: seq<Event>)
    requires Inv(w)
    ensures Inv(Run(w, events))
  {
    if events != [] {
      RunKeepsInv(w, events[..|events| - 1]);
      StepKeepsInv(Run(w, events[..|events| - 1]), events[|events| - 1]);
    }
  }
}
