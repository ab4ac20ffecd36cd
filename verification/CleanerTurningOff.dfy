/**
 When turning developer mode off stops a cleanup.  A save goes through the serialized chain,
 so what counts is whether the chain is free when the save comes in.
 */
module CleanerTurningOff {
  import opened Wrappers
  import opened CleanerCore
  import opened CleanerTheorems
  import opened CleanerWorker
  import opened CleanerTraces
  import opened CleanerRuns
  import opened CleanerSafety
  import opened CleanerSync
  import opened CleanerTriggers
  import opened CleanerScenes

  // ---------------------------------------------------------------- when a save takes effect

  lemma NoSuchTask(w: World, i: nat, x: Input)
    requires Shaped(w) && |w.tasks| <= i
    ensures Step(w, Resumed(i, x)) == w
  {}

  /** Behind another operation a save only joins the queue. */
  lemma BusySave(w: World, v: RawSettings)
    requires Shaped(w) && w.queue == [] && !ChainFree(w)
    ensures Run(w, SaveEvents(|w.tasks|, v)) == w.(queue := [SaveOp(v, false)])
  {
    var i, waiting := |w.tasks|, w.(queue := [SaveOp(v, false)]);
    SaveWaits(w, v, [Resumed(i, DONE_WELL), Resumed(i, DONE_WELL)]);
    TwoEvents(waiting, Resumed(i, DONE_WELL), Resumed(i, DONE_WELL));
    NoSuchTask(waiting, i, DONE_WELL);
  }

  /** A save that comes in, and whose writes succeed, is stored exactly when the chain is free. */
  lemma SaveTakesEffectIff(w: World, v: RawSettings, s: Settings)
    requires Shaped(w) && w.queue == [] && NormalSettings(v) == Ok(s) && w.sh.stored != Some(s)
    ensures Run(w, SaveEvents(|w.tasks|, v)).sh.stored == Some(s) <==> ChainFree(w)
  {
    if ChainFree(w) {
      SaveRun(w, v, s);
    } else {
      BusySave(w, v);
    }
  }

  /** An automatic cleanup is the operation that the chain waits for. */
  lemma AutomationHoldsTheChain(w: World, i: nat)
    requires Reached(w) && i < |w.tasks| && InBody(w.tasks[i]) && w.tasks[i].job.why.Automatic?
    ensures w.serial == Some(i) && !ChainFree(w)
  {
    ReachedInv(w);
  }

  // ---------------------------------------------------------------- a free chain

  lemma ReachedRun(w: World, events: seq<Event>)
    requires Reached(w) && Shaped(w)
    ensures Reached(Run(w, events))
  {
    var stored, review, synced, before :| w == Run(Fresh(stored, review, synced), before);
    RunConcat(Fresh(stored, review, synced), before, events);
  }

  lemma {:induction false} RemovalsFrame(did: seq<seq<Effect>>, more: seq<seq<Effect>>, n: nat)
    requires n <= |did| <= |more| && forall j | 0 <= j < n :: more[j] == did[j]
    ensures Removals(more, n) == Removals(did, n)
  {
    if n > 0 {
      RemovalsFrame(did, more, n - 1);
    }
  }

  /** Disabled settings that were accepted are never read back as enabled. */
  lemma AcceptedStaysOff(v: RawSettings, s: Settings)
    requires NormalSettings(v) == Ok(s) && !s.enabled
    ensures !Enabled(Got(Some(s)))
  {
    NormalSettingsAreGood(v);
    ReadStored(Some(s));
  }

  lemma SaveRemovesNothing(w: World, v: RawSettings, s: Settings)
    requires Quiet(w) && NormalSettings(v) == Ok(s)
    ensures var r := Run(w, SaveEvents(|w.tasks|, v));
            Removals(r.did, |r.did|) == Removals(w.did, |w.did|)
  {
    SaveRun(w, v, s);
    var r := Run(w, SaveEvents(|w.tasks|, v));
    RemovalsFrame(w.did, r.did, |w.did|);
    assert IssuedCalls(r.did[|w.did|]) == [];
  }

  /**
   After a disabling save at a free chain at most one further removal is issued for as long
   as it stays stored, whatever cleanup runs.
   */
  lemma SaveAtFreeChainStops(w: World, v: RawSettings, s: Settings, more: seq<Event>)
    requires Reached(w) && Quiet(w) && NormalSettings(v) == Ok(s) && !s.enabled
    requires var r := Run(w, SaveEvents(|w.tasks|, v)); forall n | 0 <= n < |more| :: SwitchedOff(Run(r, more[..n]))
    ensures SwitchedOff(Run(w, SaveEvents(|w.tasks|, v)))
    ensures var r := Run(Run(w, SaveEvents(|w.tasks|, v)), more);
            Removals(r.did, |r.did|) <= Removals(w.did, |w.did|) + 1
  {
    SaveRun(w, v, s);
    AcceptedStaysOff(v, s);
    SaveRemovesNothing(w, v, s);
    ReachedRun(w, SaveEvents(|w.tasks|, v));
    SwitchingOffStopsCleanups(Run(w, SaveEvents(|w.tasks|, v)), more);
  }

  // ---------------------------------------------------------------- a busy chain

  lemma {:induction false} RemovalsOfOne(did: seq<seq<Effect>>, more: seq<seq<Effect>>, i: nat, n: nat)
    requires i < |did| == |more| && n <= |did| && forall j | 0 <= j < |did| && j != i :: more[j] == did[j]
    requires |IssuedCalls(more[i])| >= |IssuedCalls(did[i])|
    ensures Removals(more, n) == Removals(did, n) + if i < n then |IssuedCalls(more[i])| - |IssuedCalls(did[i])| else 0
  {
    if n > 0 {
      RemovalsOfOne(did, more, i, n - 1);
    }
  }

  lemma AllIssuedCount(w: World, r: World, i: nat, job: Job)
    requires i < |w.did| && AllIssued(w, r, i, job)
    ensures Removals(r.did, |r.did|) == Removals(w.did, |w.did|) + (|job.plan.calls| - |job.completed|)
  {
    RemovalsOfOne(w.did, r.did, i, |w.did|);
  }

  /** A cleanup that waits for the read before its next call, over enabled settings. */
  ghost predicate Waiting(w: World, i: nat, job: Job) {
    Shaped(w) && i < |w.tasks| && w.tasks[i] == Checking(job, None) && Enabled(Got(w.sh.stored))
  }

  function Left(job: Job): int {
    |job.plan.calls| - |job.completed|
  }

  lemma WaitingIssuesAll(w: World, i: nat, job: Job)
    requires Waiting(w, i, job) && Left(job) > 0
    ensures AllIssued(w, Run(w, RemovalEvents(i, Left(job))), i, job)
  {
    AllRemovals(w, i, job, Left(job));
  }

  lemma WaitingInQueue(w: World, i: nat, job: Job, v: RawSettings)
    requires Waiting(w, i, job)
    ensures Waiting(w.(queue := [SaveOp(v, false)]), i, job)
  {}

  lemma BusyChainIssuesAll(w: World, i: nat, job: Job, v: RawSettings)
    requires Waiting(w, i, job) && w.queue == [] && !ChainFree(w) && Left(job) > 0
    ensures AllIssued(w.(queue := [SaveOp(v, false)]),
                      Run(Run(w, SaveEvents(|w.tasks|, v)), RemovalEvents(i, Left(job))), i, job)
  {
    BusySave(w, v);
    WaitingInQueue(w, i, job, v);
    WaitingIssuesAll(w.(queue := [SaveOp(v, false)]), i, job);
  }

  /**
   Behind another operation of the chain a save comes too late for every cleanup, confirmed
   or not: with good answers it issues all the calls it has left while the save waits.
   */
  lemma BusyChainOutlastsSaves(w: World, i: nat, job: Job, v: RawSettings)
    requires Waiting(w, i, job) && w.queue == [] && !ChainFree(w) && Left(job) > 0
    ensures var r := Run(Run(w, SaveEvents(|w.tasks|, v)), RemovalEvents(i, Left(job)));
            && AllIssued(w.(queue := [SaveOp(v, false)]), r, i, job)
            && Removals(r.did, |r.did|) == Removals(w.did, |w.did|) + Left(job)
  {
    var r := Run(Run(w, SaveEvents(|w.tasks|, v)), RemovalEvents(i, Left(job)));
    BusyChainIssuesAll(w, i, job, v);
    AllIssuedCount(w.(queue := [SaveOp(v, false)]), r, i, job);
  }

  // ---------------------------------------------------------------- exactly when

  /** Only the cleanup in this task goes on. */
  predicate OnlyTask(events: seq<Event>, i: nat) {
    forall e <- events :: (e.StorageAnswers? && e.i == i) || (e.Resumed? && e.i == i)
  }

  /** A body, and what it turns into. */
  predicate Cleaning(t: Task) {
    InBody(t) || t.Configuring? || t.Done?
  }

  lemma CleaningResumes(sh: Shared, t: Task, x: Input)
    requires Cleaning(t)
    ensures Cleaning(Resume(sh, t, x).task) && Resume(sh, t, x).sh.stored == sh.stored
  {
    if InBody(t) {
      BodyTickets(sh, t, x);
    }
  }

  lemma CleaningSampled(t: Task, s: Sample)
    requires Cleaning(t)
    ensures Cleaning(Sampled(t, s))
  {
    SampledSame(t, s, []);
  }

  lemma CleaningSteps(w: World, i: nat, e: Event)
    requires Shaped(w) && i < |w.tasks| && Cleaning(w.tasks[i]) && OnlyTask([e], i)
    ensures var r := Step(w, e);
            i < |r.tasks| && Cleaning(r.tasks[i]) && r.sh.stored == w.sh.stored
  {
    assert e in [e];
    if e.StorageAnswers? {
      CleaningSampled(w.tasks[i], if e.ok then Got(w.sh.stored) else ReadFailed);
    } else {
      CleaningResumes(w.sh, w.tasks[i], e.x);
    }
  }

  lemma {:induction false} CleaningStores(w: World, i: nat, events: seq<Event>)
    requires Shaped(w) && i < |w.tasks| && Cleaning(w.tasks[i]) && OnlyTask(events, i)
    ensures var r := Run(w, events);
            i < |r.tasks| && Cleaning(r.tasks[i]) && r.sh.stored == w.sh.stored
  {
    if events != [] {
      var before, last := events[..|events| - 1], events[|events| - 1];
      assert last in events;
      CleaningStores(w, i, before);
      CleaningSteps(Run(w, before), i, last);
    }
  }

  lemma {:induction false} RemovalEventsAreOne(i: nat, n: nat)
    ensures OnlyTask(RemovalEvents(i, n), i)
  {
    if n > 0 {
      RemovalEventsAreOne(i, n - 1);
    }
  }

  /** However the cleanup goes on after the save, it issues at most one more removal. */
  ghost predicate SaveStops(w: World, i: nat, v: RawSettings)
    requires Shaped(w)
  {
    forall more: seq<Event> | OnlyTask(more, i) ::
      var r := Run(Run(w, SaveEvents(|w.tasks|, v)), more);
      Removals(r.did, |r.did|) <= Removals(w.did, |w.did|) + 1
  }

  lemma FreeChainStops(w: World, i: nat, v: RawSettings, s: Settings, more: seq<Event>)
    requires Reached(w) && Quiet(w) && NormalSettings(v) == Ok(s) && !s.enabled
    requires i < |w.tasks| && Cleaning(w.tasks[i]) && OnlyTask(more, i)
    ensures var r := Run(Run(w, SaveEvents(|w.tasks|, v)), more);
            Removals(r.did, |r.did|) <= Removals(w.did, |w.did|) + 1
  {
    SaveRun(w, v, s);
    AcceptedStaysOff(v, s);
    var saved := Run(w, SaveEvents(|w.tasks|, v));
    forall n | 0 <= n < |more| ensures SwitchedOff(Run(saved, more[..n])) {
      CleaningStores(saved, i, more[..n]);
    }
    SaveAtFreeChainStops(w, v, s, more);
  }

  lemma FreeSaveStops(w: World, i: nat, v: RawSettings, s: Settings)
    requires Reached(w) && Quiet(w) && NormalSettings(v) == Ok(s) && !s.enabled
    requires i < |w.tasks| && Cleaning(w.tasks[i])
    ensures SaveStops(w, i, v)
  {
    forall more: seq<Event> | OnlyTask(more, i)
      ensures var r := Run(Run(w, SaveEvents(|w.tasks|, v)), more);
              Removals(r.did, |r.did|) <= Removals(w.did, |w.did|) + 1
    {
      FreeChainStops(w, i, v, s, more);
    }
  }

  lemma NotStopped(w: World, i: nat, v: RawSettings, more: seq<Event>)
    requires Shaped(w) && OnlyTask(more, i)
    requires var r := Run(Run(w, SaveEvents(|w.tasks|, v)), more);
             Removals(r.did, |r.did|) > Removals(w.did, |w.did|) + 1
    ensures !SaveStops(w, i, v)
  {}

  lemma BusySaveStopsNothing(w: World, i: nat, job: Job, v: RawSettings)
    requires Waiting(w, i, job) && w.queue == [] && !ChainFree(w) && Left(job) >= 2
    ensures !SaveStops(w, i, v)
  {
    RemovalEventsAreOne(i, Left(job));
    BusyChainOutlastsSaves(w, i, job, v);
    NotStopped(w, i, v, RemovalEvents(i, Left(job)));
  }

  /**
   A disabling save that comes in while a cleanup has two or more calls left stops it, after
   at most one more, exactly when the serialized chain is free at that moment.  Who asked for
   the cleanup does not matter, except that an automatic one holds the chain itself.
   */
  lemma TurningOffStopsIff(w: World, i: nat, job: Job, v: RawSettings, s: Settings)
    requires Reached(w) && Waiting(w, i, job) && w.queue == [] && Left(job) >= 2
    requires NormalSettings(v) == Ok(s) && !s.enabled
    ensures SaveStops(w, i, v) <==> ChainFree(w)
    ensures job.why.Automatic? ==> !SaveStops(w, i, v)
  {
    if job.why.Automatic? {
      AutomationHoldsTheChain(w, i);
    }
    if ChainFree(w) {
      FreeSaveStops(w, i, v, s);
    } else {
      BusySaveStopsNothing(w, i, job, v);
    }
  }

  // ---------------------------------------------------------------- a confirmed cleanup that is not stopped

  /** A preview, its confirmation, and the cleanup in its body, as tasks 0 and 1. */
  function PreviewEvents(msg: PreviewMessage): seq<Event> {
    [Posted(PreviewAsked(msg)), StorageAnswers(0, true), Resumed(0, DONE_WELL)]
  }

  const CONFIRMED: seq<Event> := [Posted(ExecuteAsked("", true, 0)), StorageAnswers(1, true), Resumed(1, DONE_WELL)]

  function ManualEvents(msg: PreviewMessage): seq<Event> {
    PreviewEvents(msg) + ([Resumed(0, DONE_WELL)] + CONFIRMED)
  }

  /** Settings and a message that lead to a plan without the active tab. */
  ghost predicate Previews(s: Settings, msg: PreviewMessage, p: Preset) {
    GoodSettings(s) && SettingsFit(s) && s.enabled && NamedPreset(s, msg) == Some(p) && !UsesActive(p)
  }

  /** What all stages of the run have in common. */
  ghost predicate Stage(w: World, s: Settings, n: nat) {
    Shaped(w) && |w.tasks| == n && w.queue == [] && w.serial == None && w.sh.stored == Some(s) && !w.sh.running
  }

  lemma PreviewPosted(w: World, s: Settings, msg: PreviewMessage)
    requires Stage(w, s, 0)
    ensures var r := Step(w, Posted(PreviewAsked(msg)));
            Stage(r, s, 1) && r.tasks[0] == PreviewRead(msg, false, None) && r.made == w.made
  {}

  lemma PreviewSampled(w: World, s: Settings, msg: PreviewMessage)
    requires Stage(w, s, 1) && w.tasks[0] == PreviewRead(msg, false, None)
    ensures var r := Step(w, StorageAnswers(0, true));
            Stage(r, s, 1) && r.tasks[0] == PreviewRead(msg, false, Some(Got(Some(s)))) && r.made == w.made
  {}

  lemma PreviewPasses(sh: Shared, s: Settings, msg: PreviewMessage)
    requires ReadOf(Got(Some(s))) == Ok(s) && s.enabled && !sh.running
    ensures PreviewChecked(sh, PreviewRead(msg, false, Some(Got(Some(s)))), Got(Some(s)))
         == Next(sh, PreviewTab(s, msg, false), [])
  {}

  lemma PreviewResumes(sh: Shared, msg: PreviewMessage, got: Sample)
    ensures Resume(sh, PreviewRead(msg, false, Some(got)), DONE_WELL)
         == PreviewChecked(sh, PreviewRead(msg, false, Some(got)), got)
  {}

  lemma PreviewWaits(w: World, s: Settings, msg: PreviewMessage)
    requires Stage(w, s, 1) && w.tasks[0] == PreviewRead(msg, false, Some(Got(Some(s))))
    requires ReadOf(Got(Some(s))) == Ok(s) && s.enabled
    ensures var r := Step(w, Resumed(0, DONE_WELL));
            Stage(r, s, 1) && r.tasks[0] == PreviewTab(s, msg, false) && r.made == w.made
  {
    PreviewPasses(w.sh, s, msg);
    PreviewResumes(w.sh, msg, Got(Some(s)));
    StretchLands(w, 0, Next(w.sh, PreviewTab(s, msg, false), []));
  }

  lemma PreviewRun(s: Settings, msg: PreviewMessage)
    requires GoodSettings(s) && SettingsFit(s) && s.enabled
    ensures var r := Run(Fresh(Some(s), None, None), PreviewEvents(msg));
            Stage(r, s, 1) && r.tasks[0] == PreviewTab(s, msg, false) && r.made == map[]
  {
    var w := Fresh(Some(s), None, None);
    ThreeEvents(w, Posted(PreviewAsked(msg)), StorageAnswers(0, true), Resumed(0, DONE_WELL));
    ReadStored(Some(s));
    PreviewPosted(w, s, msg);
    var a := Step(w, Posted(PreviewAsked(msg)));
    PreviewSampled(a, s, msg);
    PreviewWaits(Step(a, StorageAnswers(0, true)), s, msg);
  }

  /** A ticket for this plan, which starts without looking at a tab. */
  predicate TicketFits(k: Ticket, s: Settings, plan: Plan) {
    k.settings == s && k.expires == TICKET_TTL && !k.requiresActive && k.plan == plan
  }

  lemma TicketExists(s: Settings, msg: PreviewMessage, p: Preset)
    requires NamedPreset(s, msg) == Some(p) && PlanFor(Some(RawOfPreset(p)), NotAUrl, 0).Ok?
    ensures TicketFor(s, msg, DONE_WELL).Some?
  {}

  lemma NamedIsListed(s: Settings, msg: PreviewMessage, p: Preset)
    requires Previews(s, msg, p)
    ensures GoodPreset(p) && PresetFits(p)
  {}

  lemma IssuedFits(k: Ticket, m: Made, s: Settings, p: Preset)
    requires Issues(k, m) && MadeOk(m) && m.at == 0 && m.settings == s && m.plannedAt == 0 && Parsed(m.tab) == NotAUrl
    requires NamedPreset(s, m.msg) == Some(p) && !UsesActive(p)
    ensures PlanFor(Some(RawOfPreset(p)), NotAUrl, 0).Ok?
    ensures TicketFits(k, s, PlanFor(Some(RawOfPreset(p)), NotAUrl, 0).value)
  {}

  lemma TicketIssued(s: Settings, msg: PreviewMessage, p: Preset)
    requires Previews(s, msg, p)
    ensures PlanFor(Some(RawOfPreset(p)), NotAUrl, 0).Ok? && TicketFor(s, msg, DONE_WELL).Some?
    ensures TicketFits(TicketFor(s, msg, DONE_WELL).value, s, PlanFor(Some(RawOfPreset(p)), NotAUrl, 0).value)
  {
    NamedIsListed(s, msg, p);
    PlanSucceeds(p, 0);
    TicketExists(s, msg, p);
    TicketForOk(s, msg, DONE_WELL);
    var k := TicketFor(s, msg, DONE_WELL).value;
    IssuedFits(k, MadeOf(s, msg, DONE_WELL, k.plan), s, p);
  }

  lemma IssuedIs(sh: Shared, s: Settings, msg: PreviewMessage, k: Ticket)
    requires TicketFor(s, msg, DONE_WELL) == Some(k)
    ensures PreviewIssued(sh, PreviewTab(s, msg, false), DONE_WELL) == Next(sh.(tickets := map["" := k]), Done, [])
  {}

  lemma TabResumes(sh: Shared, s: Settings, msg: PreviewMessage)
    ensures Resume(sh, PreviewTab(s, msg, false), DONE_WELL) == PreviewIssued(sh, PreviewTab(s, msg, false), DONE_WELL)
  {}

  /** A stretch that issues a ticket under a token never used before. */
  lemma IssueLands(w: World, i: nat, n: Next)
    requires Shaped(w) && i < |w.tasks| && "" !in w.made && n == Resume(w.sh, w.tasks[i], DONE_WELL)
    ensures var r := Step(w, Resumed(i, DONE_WELL));
            && r.sh == n.sh && r.tasks == w.tasks[i := n.task] && r.queue == w.queue && r.serial == w.serial
  {}

  lemma IssueStep(w: World, s: Settings, msg: PreviewMessage, k: Ticket)
    requires Stage(w, s, 1) && w.tasks[0] == PreviewTab(s, msg, false) && "" !in w.made
    requires TicketFor(s, msg, DONE_WELL) == Some(k)
    ensures var r := Step(w, Resumed(0, DONE_WELL));
            Stage(r, s, 1) && r.sh.tickets == map["" := k]
  {
    IssuedIs(w.sh, s, msg, k);
    TabResumes(w.sh, s, msg);
    IssueLands(w, 0, Next(w.sh.(tickets := map["" := k]), Done, []));
  }

  lemma TakeStep(w: World, s: Settings, k: Ticket)
    requires Stage(w, s, 1) && w.sh.tickets == map["" := k] && k.expires >= 0
    ensures var r := Step(w, Posted(ExecuteAsked("", true, 0)));
            Stage(r, s, 2) && r.tasks[1] == ExecRead(Pick(k, Confirmed(""), 0), None) && r.did[1] == []
  {}

  lemma TakenSampled(w: World, s: Settings, pick: Pick)
    requires Stage(w, s, 2) && w.tasks[1] == ExecRead(pick, None) && w.did[1] == []
    ensures var r := Step(w, StorageAnswers(1, true));
            Stage(r, s, 2) && r.tasks[1] == ExecRead(pick, Some(Got(Some(s)))) && r.did[1] == []
  {}

  lemma TakenPasses(sh: Shared, s: Settings, pick: Pick)
    requires ReadOf(Got(Some(s))) == Ok(s) && s.enabled && !sh.running
    requires pick.ticket.settings == s && !pick.ticket.requiresActive
    ensures ExecuteCompared(sh, pick, Got(Some(s))) == Begin(sh, JobOf(pick), Some(pick), Some(s), None)
  {}

  lemma TakenResumes(sh: Shared, pick: Pick, got: Sample)
    ensures Resume(sh, ExecRead(pick, Some(got)), DONE_WELL) == ExecuteCompared(sh, pick, got)
  {}

  /** The worker in the body of a confirmed cleanup that has issued nothing yet. */
  ghost predicate InManualBody(w: World, s: Settings, job: Job) {
    && Shaped(w) && |w.tasks| == 2 && w.queue == [] && w.serial == None && w.sh.stored == Some(s)
    && w.tasks[1] == Checking(job, None) && job.completed == [] && job.why.Confirmed?
    && IssuedCalls(w.did[1]) == []
  }

  lemma BodyBegins(w: World, s: Settings, pick: Pick)
    requires Stage(w, s, 2) && w.tasks[1] == ExecRead(pick, Some(Got(Some(s)))) && w.did[1] == []
    requires ReadOf(Got(Some(s))) == Ok(s) && s.enabled && pick.ticket.settings == s && !pick.ticket.requiresActive
    requires |pick.ticket.plan.calls| > 0 && pick.why.Confirmed?
    ensures InManualBody(Step(w, Resumed(1, DONE_WELL)), s, JobOf(pick))
  {
    TakenPasses(w.sh, s, pick);
    TakenResumes(w.sh, pick, Got(Some(s)));
    var e := Started(pick.why, pick.ticket.plan, Some(pick), Some(s), None);
    StretchLands(w, 1, Next(w.sh.(running := true), Checking(JobOf(pick), None), [e]));
    FirstEffect(e);
    assert [] + [e] == [e];
  }

  lemma ConfirmedRun(w: World, s: Settings, k: Ticket)
    requires Stage(w, s, 1) && w.sh.tickets == map["" := k] && k.expires >= 0
    requires ReadOf(Got(Some(s))) == Ok(s) && s.enabled && k.settings == s && !k.requiresActive && |k.plan.calls| > 0
    ensures InManualBody(Run(w, CONFIRMED), s, JobOf(Pick(k, Confirmed(""), 0)))
  {
    var pick := Pick(k, Confirmed(""), 0);
    ThreeEvents(w, Posted(ExecuteAsked("", true, 0)), StorageAnswers(1, true), Resumed(1, DONE_WELL));
    TakeStep(w, s, k);
    var a := Step(w, Posted(ExecuteAsked("", true, 0)));
    TakenSampled(a, s, pick);
    BodyBegins(Step(a, StorageAnswers(1, true)), s, pick);
  }

  lemma PlannedCalls(p: Preset)
    requires GoodPreset(p) && PresetFits(p) && PlanFor(Some(RawOfPreset(p)), NotAUrl, 0).Ok?
    ensures |PlanFor(Some(RawOfPreset(p)), NotAUrl, 0).value.calls| == |p.types| > 0
  {
    PresetReadsBack(p);
    PlanFollowsTypes(p, NotAUrl, 0);
  }

  lemma IssuedRun(w: World, s: Settings, msg: PreviewMessage, k: Ticket, plan: Plan) returns (job: Job)
    requires Stage(w, s, 1) && w.tasks[0] == PreviewTab(s, msg, false) && w.made == map[]
    requires TicketFor(s, msg, DONE_WELL) == Some(k) && TicketFits(k, s, plan) && |plan.calls| > 0
    requires ReadOf(Got(Some(s))) == Ok(s) && s.enabled
    ensures InManualBody(Run(w, [Resumed(0, DONE_WELL)] + CONFIRMED), s, job) && job.plan == plan
  {
    job := JobOf(Pick(k, Confirmed(""), 0));
    RunFirst(w, Resumed(0, DONE_WELL), CONFIRMED);
    IssueStep(w, s, msg, k);
    ConfirmedRun(Step(w, Resumed(0, DONE_WELL)), s, k);
  }

  lemma ManualRun(s: Settings, msg: PreviewMessage, p: Preset) returns (job: Job)
    requires Previews(s, msg, p)
    ensures PlanFor(Some(RawOfPreset(p)), NotAUrl, 0) == Ok(job.plan) && |job.plan.calls| == |p.types| > 0
    ensures InManualBody(Run(Fresh(Some(s), None, None), ManualEvents(msg)), s, job)
  {
    var w := Fresh(Some(s), None, None);
    RunConcat(w, PreviewEvents(msg), [Resumed(0, DONE_WELL)] + CONFIRMED);
    PreviewRun(s, msg);
    TicketIssued(s, msg, p);
    NamedIsListed(s, msg, p);
    ReadStored(Some(s));
    PlannedCalls(p);
    var k, plan := TicketFor(s, msg, DONE_WELL).value, PlanFor(Some(RawOfPreset(p)), NotAUrl, 0).value;
    job := IssuedRun(Run(w, PreviewEvents(msg)), s, msg, k, plan);
  }

  /** A confirmed cleanup that waits while the chain is at another operation. */
  ghost predicate Held(w: World, s: Settings, job: Job) {
    && Waiting(w, 1, job) && w.queue == [] && !ChainFree(w) && w.sh.stored == Some(s) && |w.tasks| == 3
    && IssuedCalls(w.did[1]) == [] && job.completed == [] && Left(job) > 0 && job.why.Confirmed?
  }

  /** A trigger that the chain has taken up, and that still waits for its read. */
  lemma TriggerHoldsChain(w: World, s: Settings, job: Job, source: Source)
    requires InManualBody(w, s, job) && |job.plan.calls| > 0 && Enabled(Got(Some(s)))
    ensures Held(Run(w, [Queued(TriggerOp(source)), ChainMoves]), s, job)
  {
    OpStarts(w, TriggerOp(source));
    StartShape(w.sh, TriggerOp(source));
  }

  /** A trigger fires, a save comes in, then every call answers well. */
  function TriggerAndSave(source: Source, save: RawSettings, n: nat): seq<Event> {
    [Queued(TriggerOp(source)), ChainMoves] + (SaveEvents(3, save) + RemovalEvents(1, n))
  }

  /** A confirmed cleanup starts before all that. */
  function ManualTooLate(msg: PreviewMessage, source: Source, save: RawSettings, n: nat): seq<Event> {
    ManualEvents(msg) + TriggerAndSave(source, save, n)
  }

  /** Task 1, a confirmed cleanup, has issued these calls, and the save still waits. */
  ghost predicate RanOn(w: World, s: Settings, save: RawSettings, calls: seq<Call>) {
    && |w.did| == |w.tasks| == 3 && IssuedCalls(w.did[1]) == calls
    && w.tasks[1].Recording? && w.tasks[1].job.why.Confirmed?
    && w.sh.stored == Some(s) && w.queue == [SaveOp(save, false)]
  }

  lemma AllIssuedRanOn(w: World, r: World, s: Settings, job: Job, save: RawSettings)
    requires |w.tasks| == |w.did| == 3 && AllIssued(w, r, 1, job) && IssuedCalls(w.did[1]) == []
    requires w.sh.stored == Some(s) && w.queue == [SaveOp(save, false)] && job.completed == [] && job.why.Confirmed?
    ensures RanOn(r, s, save, job.plan.calls)
  {
    assert job.plan.calls[0..] == job.plan.calls;
  }

  lemma HeldEvents(w: World, save: RawSettings, n: nat)
    requires Shaped(w) && |w.tasks| == 3
    ensures Run(w, SaveEvents(3, save) + RemovalEvents(1, n))
         == Run(Run(w, SaveEvents(|w.tasks|, save)), RemovalEvents(1, n))
  {
    RunConcat(w, SaveEvents(3, save), RemovalEvents(1, n));
  }

  lemma HeldManual(w: World, s: Settings, job: Job, save: RawSettings)
    requires Held(w, s, job)
    ensures RanOn(Run(w, SaveEvents(3, save) + RemovalEvents(1, Left(job))), s, save, job.plan.calls)
  {
    HeldEvents(w, save, Left(job));
    BusyChainIssuesAll(w, 1, job, save);
    var r := Run(Run(w, SaveEvents(|w.tasks|, save)), RemovalEvents(1, Left(job)));
    AllIssuedRanOn(w.(queue := [SaveOp(save, false)]), r, s, job, save);
  }

  lemma BodyOutlasts(w: World, s: Settings, job: Job, source: Source, save: RawSettings)
    requires InManualBody(w, s, job) && |job.plan.calls| > 0 && Enabled(Got(Some(s)))
    ensures RanOn(Run(w, TriggerAndSave(source, save, Left(job))), s, save, job.plan.calls)
  {
    TriggerHoldsChain(w, s, job, source);
    HeldManual(Run(w, [Queued(TriggerOp(source)), ChainMoves]), s, job, save);
    RunConcat(w, [Queued(TriggerOp(source)), ChainMoves], SaveEvents(3, save) + RemovalEvents(1, Left(job)));
  }

  lemma JobOutlasts(w: World, first: seq<Event>, s: Settings, job: Job, source: Source, save: RawSettings)
    requires Shaped(w) && InManualBody(Run(w, first), s, job)
    requires |job.plan.calls| > 0 && Enabled(Got(Some(s)))
    ensures RanOn(Run(w, first + TriggerAndSave(source, save, Left(job))), s, save, job.plan.calls)
  {
    RunConcat(w, first, TriggerAndSave(source, save, Left(job)));
    BodyOutlasts(Run(w, first), s, job, source, save);
  }

  /**
   For all settings, previews without the active tab, triggers and saves: a confirmed cleanup
   issues every call of its plan while the save waits behind the trigger.
   */
  lemma ManualOutlastsSaves(s: Settings, msg: PreviewMessage, p: Preset, source: Source, save: RawSettings)
    returns (plan: Plan)
    requires Previews(s, msg, p)
    ensures PlanFor(Some(RawOfPreset(p)), NotAUrl, 0) == Ok(plan) && |plan.calls| == |p.types|
    ensures RanOn(Run(Fresh(Some(s), None, None), ManualTooLate(msg, source, save, |plan.calls|)), s, save, plan.calls)
  {
    var job := ManualRun(s, msg, p);
    plan := job.plan;
    EnabledIsRead(s);
    JobOutlasts(Fresh(Some(s), None, None), ManualEvents(msg), s, job, source, save);
    assert Left(job) == |plan.calls|;
  }

  lemma EnabledIsRead(s: Settings)
    requires GoodSettings(s) && SettingsFit(s) && s.enabled
    ensures Enabled(Got(Some(s)))
  {
    ReadStored(Some(s));
  }

  /**
   The user turns developer mode off while a confirmed cleanup of both caches waits before its
   first call and the hourly trigger is being looked at: both calls are issued all the same.
   */
  lemma ConfirmedCleanupRunsOn()
    ensures NormalSettings(RawOf(HOURLY.(enabled := false))) == Ok(HOURLY.(enabled := false))
    ensures exists calls ::
              |calls| == 2 && RanOn(Run(Fresh(Some(HOURLY), None, None), ConfirmedTooLate()),
                                    HOURLY, RawOf(HOURLY.(enabled := false)), calls)
  {
    HourlyIsGood();
    HourlyStarts();
    SettingsReadBack(HOURLY.(enabled := false));
    var off := RawOf(HOURLY.(enabled := false));
    var plan := ManualOutlastsSaves(HOURLY, PreviewMessage(None, None), CACHES, Schedule, off);
    assert |plan.calls| == 2;
  }

  function ConfirmedTooLate(): seq<Event> {
    ManualTooLate(PreviewMessage(None, None), Schedule, RawOf(HOURLY.(enabled := false)), 2)
  }
}
