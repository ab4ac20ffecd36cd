/** Where the cleanups and previews of a run come from: the messages posted in it. */
module CleanerOrigins {
  import opened Wrappers
  import opened CleanerCore
  import opened CleanerWorker
  import opened CleanerTraces
  import opened CleanerRuns
  import opened CleanerSafety

  /** A confirmed `execute` message for this ticket, handled at this time. */
  ghost predicate Confirms(events: seq<Event>, token: Token, at: int) {
    exists e <- events :: e.Posted? && e.m == ExecuteAsked(token, true, at)
  }

  /** A message that asked for this preview; the one-click action names neither tab nor preset. */
  ghost predicate AsksFor(events: seq<Event>, msg: PreviewMessage) {
    exists e <- events ::
      e.Posted? && (e.m == PreviewAsked(msg) || (e.m == CleanAsked && msg == PreviewMessage(None, None)))
  }

  function PickOf(t: Task, did: seq<Effect>): Option<Pick> {
    if t.ExecRead? || t.ExecTab? then Some(t.pick)
    else if did != [] && did[0].Started? then did[0].pick
    else None
  }

  function PreviewOf(t: Task): Option<PreviewMessage> {
    if t.PreviewRead? || t.PreviewTab? then Some(t.msg) else None
  }

  predicate Confirmed(p: Option<Pick>) {
    p.Some? && p.value.why.Confirmed?
  }

  ghost predicate Sourced(t: Task, did: seq<Effect>, events: seq<Event>) {
    && (Confirmed(PickOf(t, did)) ==> Confirms(events, PickOf(t, did).value.why.token, PickOf(t, did).value.at))
    && (PreviewOf(t).Some? ==> AsksFor(events, PreviewOf(t).value))
  }

  ghost predicate Origins(w: World, events: seq<Event>)
    requires Shaped(w)
  {
    && (forall i | 0 <= i < |w.tasks| :: Sourced(w.tasks[i], w.did[i], events))
    && (forall token <- w.made :: AsksFor(events, w.made[token].msg))
  }

  // ---------------------------------------------------------------- one stretch

  /** A stretch takes no new confirmed pick and turns into no new preview. */
  ghost predicate SameSource(t: Task, did: seq<Effect>, n: Next) {
    && (Confirmed(PickOf(n.task, did + n.effects)) ==> PickOf(n.task, did + n.effects) == PickOf(t, did))
    && (PreviewOf(n.task).Some? ==> PreviewOf(n.task) == PreviewOf(t))
  }

  lemma BeginSource(sh: Shared, t: Task, p: Pick, job: Job, read: Settings, seen: Option<TabAnswer>)
    requires (t.ExecRead? || t.ExecTab?) && t.pick == p
    ensures SameSource(t, [], Begin(sh, job, Some(p), Some(read), seen))
  {}

  lemma ComparedSource(sh: Shared, p: Pick, s: Sample)
    ensures SameSource(ExecRead(p, Some(s)), [], ExecuteCompared(sh, p, s))
  {
    if ReadOf(s).Ok? {
      BeginSource(sh, ExecRead(p, Some(s)), p, JobOf(p), ReadOf(s).value, None);
    }
  }

  lemma TabbedSource(sh: Shared, p: Pick, read: Settings, tab: TabAnswer)
    ensures SameSource(ExecTab(p, read), [], ExecuteTabbed(sh, p, read, tab))
  {
    BeginSource(sh, ExecTab(p, read), p, JobOf(p), read, Some(tab));
  }

  lemma IssuedSource(sh: Shared, t: Task, x: Input)
    requires t.PreviewTab?
    ensures SameSource(t, [], PreviewIssued(sh, t, x))
  {}

  lemma OneClickSource(sh: Shared, t: Task, x: Input)
    requires t.CleanGot?
    ensures SameSource(t, [], Resume(sh, t, x))
  {}

  lemma ManualSource(sh: Shared, t: Task, x: Input)
    requires t.PreviewTab? || t.CleanGot? || t.ExecRead? || t.ExecTab?
    ensures SameSource(t, [], Resume(sh, t, x))
  {
    match t
    case PreviewTab(_, _, _) => IssuedSource(sh, t, x);
    case CleanGot(_, _) => OneClickSource(sh, t, x);
    case ExecRead(p, Some(s)) => ComparedSource(sh, p, s);
    case ExecRead(_, None) =>
    case ExecTab(p, read) => TabbedSource(sh, p, read, x.tab);
  }

  lemma BodySource(sh: Shared, t: Task, x: Input, did: seq<Effect>)
    requires InBody(t) && Linked(t, did)
    ensures SameSource(t, did, BodyStretch(sh, t, x))
  {
    BodyTickets(sh, t, x);
    assert (did + BodyStretch(sh, t, x).effects)[0] == did[0];
  }

  lemma PlainSource(sh: Shared, t: Task, x: Input)
    requires Plain(t)
    ensures PreviewOf(Resume(sh, t, x).task).Some? ==> PreviewOf(Resume(sh, t, x).task) == PreviewOf(t)
  {}

  lemma ResumeSource(sh: Shared, t: Task, x: Input, did: seq<Effect>)
    requires Linked(t, did)
    ensures SameSource(t, did, Resume(sh, t, x))
  {
    var n := Resume(sh, t, x);
    if InBody(t) {
      BodySource(sh, t, x, did);
    } else if Plain(t) {
      PlainOk(sh, t, x);
      PlainSource(sh, t, x);
      assert did + n.effects == did;
    } else if t.AutoRead? {
      if t.got.Some? {
        AutomateLock(sh, t.source, t.got.value, x);
        AutomatePreviewsNothing(sh, t.source, t.got.value, x);
      }
    } else {
      ManualSource(sh, t, x);
    }
  }

  lemma AutomatePreviewsNothing(sh: Shared, source: Source, s: Sample, x: Input)
    ensures PreviewOf(AutomateRead(sh, source, s, x).task).None?
  {}

  // ---------------------------------------------------------------- every event

  lemma MoreEvents(t: Task, did: seq<Effect>, events: seq<Event>, e: Event)
    requires Sourced(t, did, events)
    ensures Sourced(t, did, events + [e])
  {}

  lemma LaterOrigins(w: World, events: seq<Event>, e: Event)
    requires Shaped(w) && Origins(w, events)
    ensures Origins(w, events + [e])
  {
    forall i | 0 <= i < |w.tasks| ensures Sourced(w.tasks[i], w.did[i], events + [e]) {
      MoreEvents(w.tasks[i], w.did[i], events, e);
    }
  }

  lemma LandOrigins(w: World, i: nat, n: Next, events: seq<Event>)
    requires Shaped(w) && i < |w.tasks| && Origins(w, events) && Sourced(n.task, w.did[i] + n.effects, events)
    ensures Origins(Land(w, i, n), events)
  {}

  lemma SpawnOrigins(w: World, events: seq<Event>)
    requires Shaped(w) && Origins(w, events)
    ensures Origins(Spawn(w), events)
  {
    var r := Spawn(w);
    assert Sourced(r.tasks[|w.tasks|], r.did[|w.tasks|], events);
  }

  lemma PostedSource(sh: Shared, m: Message, events: seq<Event>)
    requires Event.Posted(m) in events
    ensures Sourced(Post(sh, m).task, [], events)
  {}

  lemma StartSource(sh: Shared, op: Op, events: seq<Event>)
    ensures Sourced(StartOp(sh, op).task, [], events)
  {}

  lemma SampledSource(t: Task, s: Sample, did: seq<Effect>)
    ensures PickOf(Sampled(t, s), did) == PickOf(t, did) && PreviewOf(Sampled(t, s)) == PreviewOf(t)
  {}

  lemma DoneSource(t: Task, did: seq<Effect>, events: seq<Event>)
    requires Linked(t, did) && Sourced(t, did, events)
    ensures Sourced(Done, did, events)
  {}

  lemma PostedOrigins(w: World, m: Message, events: seq<Event>)
    requires Inv(w) && Origins(w, events) && Event.Posted(m) in events
    ensures Origins(StepPosted(w, m), events)
  {
    SpawnOrigins(w, events);
    PostShape(w.sh, m);
    PostedSource(w.sh, m, events);
    assert [] + Post(w.sh, m).effects == [];
    LandOrigins(Spawn(w), |w.tasks|, Post(w.sh, m), events);
  }

  lemma ChainOrigins(w: World, events: seq<Event>)
    requires Inv(w) && Origins(w, events)
    ensures Origins(StepChain(w), events)
  {
    if w.queue != [] && ChainFree(w) {
      SpawnOrigins(w, events);
      StartShape(w.sh, w.queue[0]);
      StartSource(w.sh, w.queue[0], events);
      assert [] + StartOp(w.sh, w.queue[0]).effects == [];
      LandOrigins(Spawn(w), |w.tasks|, StartOp(w.sh, w.queue[0]), events);
    }
  }

  lemma SampledOrigins(w: World, i: nat, t: Task, events: seq<Event>)
    requires Shaped(w) && i < |w.tasks| && Origins(w, events) && Sourced(t, w.did[i], events)
    ensures Origins(w.(tasks := w.tasks[i := t]), events)
  {}

  lemma ReadOrigins(w: World, i: nat, ok: bool, events: seq<Event>)
    requires Shaped(w) && Origins(w, events)
    ensures Origins(StepRead(w, i, ok), events)
  {
    if i < |w.tasks| {
      var s := if ok then Got(w.sh.stored) else ReadFailed;
      SampledSource(w.tasks[i], s, w.did[i]);
      assert Sourced(w.tasks[i], w.did[i], events);
      SampledOrigins(w, i, Sampled(w.tasks[i], s), events);
    }
  }

  lemma KilledOrigins(w: World, events: seq<Event>)
    requires Inv(w) && Origins(w, events)
    ensures Origins(StepKilled(w), events)
  {
    forall i | 0 <= i < |w.tasks| ensures Sourced(Done, w.did[i], events) {
      assert TaskOk(w.tasks[i], w.did[i], w.made);
      DoneSource(w.tasks[i], w.did[i], events);
    }
  }

  lemma SameSourceKeeps(t: Task, did: seq<Effect>, n: Next, events: seq<Event>)
    requires Sourced(t, did, events) && SameSource(t, did, n)
    ensures Sourced(n.task, did + n.effects, events)
  {}

  lemma MadeSource(made: map<Token, Made>, t: Task, x: Input, events: seq<Event>)
    requires PreviewOf(t).Some? ==> AsksFor(events, PreviewOf(t).value)
    requires forall token <- made :: AsksFor(events, made[token].msg)
    ensures forall token <- MadeBy(made, t, x) :: AsksFor(events, MadeBy(made, t, x)[token].msg)
  {}

  lemma ResumedOrigins(w: World, i: nat, x: Input, events: seq<Event>)
    requires Inv(w) && Origins(w, events)
    ensures Origins(StepResumed(w, i, x), events)
  {
    if i < |w.tasks| && (w.tasks[i].PreviewTab? ==> x.token !in w.made) {
      var t, n := w.tasks[i], Resume(w.sh, w.tasks[i], x);
      assert TaskOk(t, w.did[i], w.made) && Sourced(t, w.did[i], events);
      ResumeSource(w.sh, t, x, w.did[i]);
      SameSourceKeeps(t, w.did[i], n, events);
      LandOrigins(w, i, n, events);
      MadeSource(w.made, t, x, events);
    }
  }

  lemma QueuedOrigins(w: World, op: Op, events: seq<Event>)
    requires Shaped(w) && Origins(w, events)
    ensures Origins(w.(queue := w.queue + [op]), events)
  {}

  /** One event of a run that already counts it. */
  lemma EventOrigins(w: World, e: Event, events: seq<Event>)
    requires Inv(w) && Origins(w, events) && e in events
    ensures Origins(Step(w, e), events)
  {
    match e
    case Posted(m) => PostedOrigins(w, m, events);
    case Queued(op) => QueuedOrigins(w, op, events);
    case ChainMoves => ChainOrigins(w, events);
    case StorageAnswers(i, ok) => ReadOrigins(w, i, ok, events);
    case Resumed(i, x) => ResumedOrigins(w, i, x, events);
    case Killed => KilledOrigins(w, events);
  }

  lemma StepOrigins(w: World, e: Event, events: seq<Event>)
    requires Inv(w) && Origins(w, events)
    ensures Origins(Step(w, e), events + [e])
  {
    LaterOrigins(w, events, e);
    assert (events + [e])[|events|] == e;
    EventOrigins(w, e, events + [e]);
  }

  lemma {:induction false} RunOrigins(w: World, events: seq<Event>)
    requires Inv(w) && Origins(w, [])
    ensures Origins(Run(w, events), events)
  {
    if events != [] {
      var before, last := events[..|events| - 1], events[|events| - 1];
      assert events == before + [last];
      RunOrigins(w, before);
      RunKeepsInv(w, before);
      StepOrigins(Run(w, before), last, before);
    }
  }

  /**
   Every manual cleanup goes back to messages of the run: one that asked for its preview, and
   for a confirmed cleanup an `execute` message that confirmed its ticket at the time of the pick.
   */
  lemma CleanupsWereAskedFor(
    stored: Option<Settings>, review: Option<Review>, synced: Option<Settings>, events: seq<Event>, i: nat, k: nat)
    requires var w := Run(Fresh(stored, review, synced), events);
             i < |w.did| && k < |w.did[i]| && w.did[i][k].Started? && !w.did[i][k].why.Automatic?
    ensures var w := Run(Fresh(stored, review, synced), events);
            var e := w.did[i][k];
            && e.pick.Some? && e.why.token in w.made && AsksFor(events, w.made[e.why.token].msg)
            && (e.why.Confirmed? ==> Confirms(events, e.why.token, e.pick.value.at))
  {
    var w := Run(Fresh(stored, review, synced), events);
    RunKeepsInv(Fresh(stored, review, synced), events);
    RunOrigins(Fresh(stored, review, synced), events);
    ManualStart(w, i, k);
    StartedPick(w.tasks[i], w.did[i]);
    assert Sourced(w.tasks[i], w.did[i], events);
  }

  lemma StartedPick(t: Task, did: seq<Effect>)
    requires did != [] && did[0].Started? && (BeforeBody(t) ==> did == [])
    ensures PickOf(t, did) == did[0].pick
  {}
}
