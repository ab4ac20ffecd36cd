/** Two runs of the cleaner's worker that end otherwise than its documentation says. */
module CleanerScenes {
  import opened Wrappers
  import opened CleanerCore
  import opened CleanerTheorems
  import opened CleanerWorker
  import opened CleanerTraces
  import opened CleanerRuns
  import opened CleanerSafety
  import opened CleanerSync
  import opened CleanerTriggers

  const DONE_WELL := Input(true, NoTab, 0, 0, "")

  // ---------------------------------------------------------------- a save that comes too late

  /** One removal: the read of the settings, the call, its answer. */
  function Removal(i: nat): seq<Event> {
    [StorageAnswers(i, true), Resumed(i, DONE_WELL), Resumed(i, DONE_WELL)]
  }

  function RemovalEvents(i: nat, n: nat): seq<Event> {
    if n == 0 then [] else Removal(i) + RemovalEvents(i, n - 1)
  }

  function WithTask(w: World, i: nat, t: Task, e: seq<Effect>): World
    requires i < |w.tasks| == |w.did|
  {
    w.(tasks := w.tasks[i := t], did := w.did[i := w.did[i] + e])
  }

  function NextCall(job: Job): Call
    requires |job.completed| < |job.plan.calls|
  {
    job.plan.calls[|job.completed|]
  }

  function AfterRemoval(w: World, i: nat, job: Job): World
    requires i < |w.tasks| == |w.did| && |job.completed| < |job.plan.calls|
  {
    WithTask(w, i, Advance(job.(completed := job.completed + [NextCall(job).t])), [Issued(job.why, NextCall(job))])
  }

  lemma SettingsRead(w: World, i: nat, job: Job)
    requires Shaped(w) && i < |w.tasks| && w.tasks[i] == Checking(job, None)
    ensures Step(w, StorageAnswers(i, true)) == WithTask(w, i, Checking(job, Some(Got(w.sh.stored))), [])
  {
    assert w.did[i] + [] == w.did[i] && w.did[i := w.did[i]] == w.did;
  }

  lemma CallSent(w: World, i: nat, job: Job, s: Sample)
    requires Shaped(w) && i < |w.tasks| && w.tasks[i] == Checking(job, Some(s))
    requires |job.completed| < |job.plan.calls| && Enabled(s)
    ensures Step(w, Resumed(i, DONE_WELL)) == WithTask(w, i, Removing(job), [Issued(job.why, NextCall(job))])
  {
    CheckResumes(w.sh, job, s);
    CheckSends(w.sh, job, s);
    StretchLands(w, i, Next(w.sh, Removing(job), [Issued(job.why, NextCall(job))]));
  }

  lemma CheckResumes(sh: Shared, job: Job, s: Sample)
    ensures Resume(sh, Checking(job, Some(s)), DONE_WELL) == CheckStretch(sh, job, s)
  {}

  lemma CheckSends(sh: Shared, job: Job, s: Sample)
    requires |job.completed| < |job.plan.calls| && Enabled(s)
    ensures CheckStretch(sh, job, s) == Next(sh, Removing(job), [Issued(job.why, NextCall(job))])
  {}

  lemma StretchLands(w: World, i: nat, n: Next)
    requires Shaped(w) && i < |w.tasks| && !w.tasks[i].PreviewTab? && n == Resume(w.sh, w.tasks[i], DONE_WELL)
    ensures Step(w, Resumed(i, DONE_WELL)) == WithTask(w, i, n.task, n.effects).(sh := n.sh)
  {}

  lemma CallAnswered(w: World, i: nat, job: Job)
    requires Shaped(w) && i < |w.tasks| && w.tasks[i] == Removing(job) && |job.completed| < |job.plan.calls|
    ensures Step(w, Resumed(i, DONE_WELL)) ==
            WithTask(w, i, Advance(job.(completed := job.completed + [NextCall(job).t])), [])
  {}

  lemma WithTwice(w: World, i: nat, t: Task, e: seq<Effect>, u: Task, f: seq<Effect>)
    requires i < |w.tasks| == |w.did|
    ensures WithTask(WithTask(w, i, t, e), i, u, f) == WithTask(w, i, u, e + f)
  {
    assert w.did[i] + e + f == w.did[i] + (e + f);
    assert w.did[i := w.did[i] + e][i := w.did[i] + (e + f)] == w.did[i := w.did[i] + (e + f)];
    assert w.tasks[i := t][i := u] == w.tasks[i := u];
  }

  lemma OneRemoval(w: World, i: nat, job: Job)
    requires Shaped(w) && i < |w.tasks| && w.tasks[i] == Checking(job, None)
    requires |job.completed| < |job.plan.calls| && Enabled(Got(w.sh.stored))
    ensures Run(w, Removal(i)) == AfterRemoval(w, i, job)
  {
    var got := Checking(job, Some(Got(w.sh.stored)));
    var last := Advance(job.(completed := job.completed + [NextCall(job).t]));
    var e := [Issued(job.why, NextCall(job))];
    ThreeEvents(w, StorageAnswers(i, true), Resumed(i, DONE_WELL), Resumed(i, DONE_WELL));
    SettingsRead(w, i, job);
    var w1 := WithTask(w, i, got, []);
    CallSent(w1, i, job, Got(w.sh.stored));
    WithTwice(w, i, got, [], Removing(job), e);
    assert [] + e == e && e + [] == e;
    var w2 := WithTask(w, i, Removing(job), e);
    CallAnswered(w2, i, job);
    WithTwice(w, i, Removing(job), e, last, []);
  }

  lemma ThreeEvents(w: World, a: Event, b: Event, c: Event)
    requires Shaped(w)
    ensures Run(w, [a, b, c]) == Step(Step(Step(w, a), b), c)
  {
    assert [a, b, c] == [a] + ([b] + ([c] + []));
    RunFirst(w, a, [b] + ([c] + []));
    RunFirst(Step(w, a), b, [c] + []);
    RunFirst(Step(Step(w, a), b), c, []);
  }

  ghost predicate AllIssued(w: World, r: World, i: nat, job: Job)
    requires i < |w.did|
  {
    && r.sh == w.sh && r.queue == w.queue && r.serial == w.serial && |r.tasks| == |w.tasks| == |r.did| == |w.did|
    && i < |r.tasks| && r.tasks[i].Recording? && r.tasks[i].job.why == job.why
    && |job.completed| <= |job.plan.calls|
    && IssuedCalls(r.did[i]) == IssuedCalls(w.did[i]) + job.plan.calls[|job.completed|..]
    && forall j | 0 <= j < |w.did| && j != i :: r.did[j] == w.did[j]
  }

  lemma AllIssuedStep(w: World, next: World, r: World, i: nat, job: Job, job': Job)
    requires i < |w.tasks| == |w.did| && |job.completed| < |job.plan.calls|
    requires next == AfterRemoval(w, i, job) && job' == JobAfter(job)
    requires AllIssued(next, r, i, job')
    ensures AllIssued(w, r, i, job)
  {
    IssuedSnoc(w.did[i], Issued(job.why, NextCall(job)));
    var k := |job.completed|;
    assert job.plan.calls[k..] == [job.plan.calls[k]] + job.plan.calls[k + 1..];
    var before := IssuedCalls(w.did[i]);
    assert before + [job.plan.calls[k]] + job.plan.calls[k + 1..] == before + job.plan.calls[k..];
  }

  lemma LastIssued(w: World, i: nat, job: Job)
    requires Shaped(w) && i < |w.tasks| && w.tasks[i] == Recording(job) && |job.completed| == |job.plan.calls|
    ensures AllIssued(w, w, i, job)
  {
    assert job.plan.calls[|job.completed|..] == [];
  }

  function JobAfter(job: Job): Job
    requires |job.completed| < |job.plan.calls|
  {
    job.(completed := job.completed + [NextCall(job).t])
  }

  lemma AfterRemovalWaits(w: World, i: nat, job: Job)
    requires Shaped(w) && i < |w.tasks| && |job.completed| < |job.plan.calls|
    ensures var next, job' := AfterRemoval(w, i, job), JobAfter(job);
            && Shaped(next) && i < |next.tasks| == |next.did| && next.sh == w.sh
            && |job'.completed| == |job.completed| + 1 && job'.plan == job.plan
            && next.tasks[i] == Advance(job')
  {}

  lemma OneThenRest(w: World, i: nat, job: Job, n: nat)
    requires Shaped(w) && i < |w.tasks| && w.tasks[i] == Checking(job, None) && n > 0
    requires |job.completed| < |job.plan.calls| && Enabled(Got(w.sh.stored))
    ensures Shaped(AfterRemoval(w, i, job))
    ensures Run(w, RemovalEvents(i, n)) == Run(AfterRemoval(w, i, job), RemovalEvents(i, n - 1))
  {
    OneRemoval(w, i, job);
    RunConcat(w, Removal(i), RemovalEvents(i, n - 1));
  }

  /** With nothing but good answers a cleanup issues every call it has left. */
  lemma {:induction false} AllRemovals(w: World, i: nat, job: Job, n: nat)
    requires Shaped(w) && i < |w.tasks| && w.tasks[i] == Checking(job, None) && Enabled(Got(w.sh.stored))
    requires n > 0 && |job.completed| + n == |job.plan.calls|
    ensures AllIssued(w, Run(w, RemovalEvents(i, n)), i, job)
    decreases n
  {
    var next, job' := AfterRemoval(w, i, job), JobAfter(job);
    AfterRemovalWaits(w, i, job);
    OneThenRest(w, i, job, n);
    if n > 1 {
      AllRemovals(next, i, job', n - 1);
    } else {
      LastIssued(next, i, job');
    }
    AllIssuedStep(w, next, Run(next, RemovalEvents(i, n - 1)), i, job, job');
  }

  /** A trigger over a worker that has just started. */
  function Triggered(source: Source, x: Input): seq<Event> {
    [Queued(TriggerOp(source)), ChainMoves] + [StorageAnswers(0, true), Resumed(0, x)]
  }

  function AtRead(s: Settings, source: Source): World {
    Fresh(Some(s), None, None).(tasks := [AutoRead(source, None)], did := [[]], serial := Some(0))
  }

  lemma TriggerQueued(s: Settings, source: Source)
    ensures Run(Fresh(Some(s), None, None), [Queued(TriggerOp(source)), ChainMoves]) == AtRead(s, source)
  {
    var w := Fresh(Some(s), None, None);
    TwoEvents(w, Queued(TriggerOp(source)), ChainMoves);
    var queued := w.(queue := [TriggerOp(source)]);
    assert Step(w, Queued(TriggerOp(source))) == queued;
    var nothing: seq<Effect> := [];
    assert [TriggerOp(source)][1..] == [] && nothing + [] == nothing;
    assert Spawn(queued).did == [nothing] && Spawn(queued).tasks == [Done];
    assert StepChain(queued) == AtRead(s, source);
  }

  lemma TwoEvents(w: World, a: Event, b: Event)
    requires Shaped(w)
    ensures Run(w, [a, b]) == Step(Step(w, a), b)
  {
    assert [a, b] == [a] + ([b] + []);
    RunFirst(w, a, [b] + []);
    RunFirst(Step(w, a), b, []);
  }

  /** The settings start a plan for the source at once. */
  ghost predicate Starts(s: Settings, source: Source) {
    && GoodSettings(s) && SettingsFit(s) && s.enabled && SourceOn(s, source)
    && FindPreset(s, s.automation.presetId).Some? && SafeUnattended(FindPreset(s, s.automation.presetId).value)
  }

  function AutoJob(source: Source, p: Preset, now: int): Job
    requires PlanFor(Some(RawOfPreset(p)), NotAUrl, now).Ok?
  {
    Job(UnattendedPlan(p, now), None, Automatic(source, p, now), [])
  }

  lemma PlanHasCalls(p: Preset, now: int)
    requires GoodPreset(p) && PlanFor(Some(RawOfPreset(p)), NotAUrl, now).Ok?
    ensures PresetFits(p) ==> |UnattendedPlan(p, now).calls| == |p.types| > 0
  {
    PresetReadsBack(p);
    if PresetFits(p) {
      PlanFollowsTypes(p, NotAUrl, now);
    }
  }

  /** The worker right after a trigger has started the plan. */
  function AtStart(s: Settings, source: Source, job: Job, e: Effect): World {
    AtRead(s, source).(sh := Shared(Some(s), None, None, map[], true), tasks := [Checking(job, None)], did := [[e]])
  }

  lemma TriggerRead(s: Settings, source: Source)
    ensures Step(AtRead(s, source), StorageAnswers(0, true)) ==
            AtRead(s, source).(tasks := [AutoRead(source, Some(Got(Some(s))))])
  {
    var w := AtRead(s, source);
    assert w.tasks[0 := AutoRead(source, Some(Got(Some(s))))] == [AutoRead(source, Some(Got(Some(s))))];
  }

  lemma TriggerResumed(w: World, source: Source, got: Sample, x: Input, n: Next)
    requires |w.tasks| == |w.did| == 1 && Shaped(w) && w.tasks[0] == AutoRead(source, Some(got)) && w.did[0] == []
    requires AutomateRead(w.sh, source, got, x) == n
    ensures Step(w, Resumed(0, x)) == w.(sh := n.sh, tasks := [n.task], did := [n.effects])
  {
    assert [] + n.effects == n.effects;
  }

  lemma TriggerStarts(s: Settings, source: Source, x: Input)
    requires Starts(s, source)
    ensures var p := FindPreset(s, s.automation.presetId).value;
            && PlanFor(Some(RawOfPreset(p)), NotAUrl, x.later).Ok?
            && |UnattendedPlan(p, x.later).calls| == |p.types| > 0
            && Run(Fresh(Some(s), None, None), Triggered(source, x)) ==
                 AtStart(s, source, AutoJob(source, p, x.later), StartFor(source, p, s, x.later))
  {
    var p := FindPreset(s, s.automation.presetId).value;
    var w := AtRead(s, source);
    TriggerQueued(s, source);
    RunConcat(Fresh(Some(s), None, None), [Queued(TriggerOp(source)), ChainMoves],
        [StorageAnswers(0, true), Resumed(0, x)]);
    TwoEvents(w, StorageAnswers(0, true), Resumed(0, x));
    TriggerRead(s, source);
    DueTriggerRunsOrAsks(w.sh, source, s, x);
    PlanHasCalls(p, x.later);
    var n := Next(w.sh.(running := true), Checking(AutoJob(source, p, x.later), None),
        [StartFor(source, p, s, x.later)]);
    TriggerResumed(w.(tasks := [AutoRead(source, Some(Got(Some(s))))]), source, Got(Some(s)), x, n);
  }

  /** The trigger fires, then a save comes in while its cleanup waits, then every call answers well. */
  function TooLate(source: Source, x: Input, save: RawSettings, n: nat): seq<Event> {
    Triggered(source, x) + ([Queued(SaveOp(save, false)), ChainMoves] + RemovalEvents(0, n))
  }

  /**
   For all settings that start an automatic cleanup and every save that comes in while it
   runs: the cleanup issues every call of its plan, and the save is still waiting then.
   */
  lemma AutomationOutlastsSaves(s: Settings, source: Source, x: Input, save: RawSettings)
    requires Starts(s, source)
    ensures var p := FindPreset(s, s.automation.presetId).value;
            && PlanFor(Some(RawOfPreset(p)), NotAUrl, x.later).Ok?
            && var w := Run(Fresh(Some(s), None, None), TooLate(source, x, save, |p.types|));
               && |w.did| == 1 && IssuedCalls(w.did[0]) == UnattendedPlan(p, x.later).calls
               && |IssuedCalls(w.did[0])| == |p.types|
               && w.tasks[0].Recording? && w.sh.stored == Some(s) && w.queue == [SaveOp(save, false)]
  {
    var p := FindPreset(s, s.automation.presetId).value;
    TriggerStarts(s, source, x);
    var job, e := AutoJob(source, p, x.later), StartFor(source, p, s, x.later);
    RunConcat(Fresh(Some(s), None, None), Triggered(source, x),
              [Queued(SaveOp(save, false)), ChainMoves] + RemovalEvents(0, |p.types|));
    ReadStored(Some(s));
    StartedOutlasts(s, source, job, e, save);
  }

  lemma StartedOutlasts(s: Settings, source: Source, job: Job, e: Effect, save: RawSettings)
    requires Enabled(Got(Some(s))) && job.completed == [] && |job.plan.calls| > 0 && e.Started?
    ensures var w := Run(AtStart(s, source, job, e),
                         [Queued(SaveOp(save, false)), ChainMoves] + RemovalEvents(0, |job.plan.calls|));
            && |w.did| == |w.tasks| == 1 && IssuedCalls(w.did[0]) == job.plan.calls
            && w.tasks[0].Recording? && w.sh.stored == Some(s) && w.queue == [SaveOp(save, false)]
  {
    var w := AtStart(s, source, job, e);
    var n := |job.plan.calls|;
    SaveWaits(w, save, RemovalEvents(0, n));
    AllRemovals(w.(queue := [SaveOp(save, false)]), 0, job, n);
    FirstEffect(e);
  }

  lemma ChainWaits(w: World)
    requires Shaped(w) && !ChainFree(w)
    ensures Step(w, ChainMoves) == w
  {}

  lemma OpQueued(w: World, op: Op)
    requires Shaped(w) && w.queue == []
    ensures Step(w, Queued(op)) == w.(queue := [op])
  {
    assert [] + [op] == [op];
  }

  lemma SaveWaits(w: World, save: RawSettings, rest: seq<Event>)
    requires Shaped(w) && !ChainFree(w) && w.queue == []
    ensures Run(w, [Queued(SaveOp(save, false)), ChainMoves] + rest) == Run(w.(queue := [SaveOp(save, false)]), rest)
  {
    RunConcat(w, [Queued(SaveOp(save, false)), ChainMoves], rest);
    TwoEvents(w, Queued(SaveOp(save, false)), ChainMoves);
    OpQueued(w, SaveOp(save, false));
    ChainWaits(w.(queue := [SaveOp(save, false)]));
  }

  // ---------------------------------------------------------------- with real settings

  const CACHES := Preset(Rule(All, []), "hosts", "Hosts", [Cache, CacheStorage], [], Hour, false, false, false, false)

  /** Two calls every hour. */
  const HOURLY := Settings(true, true, Dark, "hosts", [CACHES], Automation(60, false, false, "hosts"))

  lemma HourlyIsGood()
    ensures GoodSettings(HOURLY) && SettingsFit(HOURLY)
  {
    HostNames();
    assert CACHES.types[1..] == [CacheStorage] && FirstProblem(CACHES, [CacheStorage]).None?;
    assert HOURLY.presets[0] == CACHES;
  }

  lemma HourlyStarts()
    ensures Starts(HOURLY, Schedule) && FindPreset(HOURLY, "hosts") == Some(CACHES)
  {
    HourlyIsGood();
  }

  /**
   The user turns developer mode off while the hourly cleanup waits before its first call;
   both calls are issued all the same, and the settings still say on.
   */
  lemma TurningOffComesTooLate()
    ensures var off := HOURLY.(enabled := false);
            && NormalSettings(RawOf(off)) == Ok(off)
            && var w := Run(Fresh(Some(HOURLY), None, None), TooLate(Schedule, DONE_WELL, RawOf(off), 2));
               && |w.did| == 1 && |IssuedCalls(w.did[0])| == 2
               && w.sh.stored == Some(HOURLY) && w.queue == [SaveOp(RawOf(off), false)]
  {
    var off := HOURLY.(enabled := false);
    HourlyStarts();
    SettingsReadBack(off);
    AutomationOutlastsSaves(HOURLY, Schedule, DONE_WELL, RawOf(off));
  }

  // ---------------------------------------------------------------- a late echo

  ghost predicate Quiet(w: World) {
    Shaped(w) && w.queue == [] && ChainFree(w)
  }

  /** An operation that the chain runs to its end, as task `i`. */
  function SaveEvents(i: nat, v: RawSettings): seq<Event> {
    [Queued(SaveOp(v, false)), ChainMoves] + [Resumed(i, DONE_WELL), Resumed(i, DONE_WELL)]
  }

  function EchoEvents(i: nat, v: RawSettings): seq<Event> {
    [Queued(SyncOp(v)), ChainMoves] + [StorageAnswers(i, true), Resumed(i, DONE_WELL), Resumed(i, DONE_WELL)]
  }

  lemma OpStarts(w: World, op: Op)
    requires Quiet(w)
    ensures var r := Run(w, [Queued(op), ChainMoves]);
            && r == Land(Spawn(w).(serial := Some(|w.tasks|)), |w.tasks|, StartOp(w.sh, op))
            && Shaped(r) && r.queue == [] && |r.tasks| == |w.tasks| + 1 && r.serial == Some(|w.tasks|)
            && r.tasks[|w.tasks|] == StartOp(w.sh, op).task && r.sh == StartOp(w.sh, op).sh
            && r.did == w.did + [[]]
  {
    StartShape(w.sh, op);
    OpLands(w, op);
    TwoEvents(w, Queued(op), ChainMoves);
    var queued := w.(queue := [op]);
    assert Step(w, Queued(op)) == queued && [op][1..] == [];
    assert StepChain(queued)
           == Land(Spawn(queued).(queue := [], serial := Some(|w.tasks|)), |w.tasks|, StartOp(w.sh, op));
    assert Spawn(queued).(queue := [], serial := Some(|w.tasks|)) == Spawn(w).(serial := Some(|w.tasks|));
  }

  lemma OpLands(w: World, op: Op)
    requires Shaped(w) && StartOp(w.sh, op).effects == []
    ensures Land(Spawn(w).(serial := Some(|w.tasks|)), |w.tasks|, StartOp(w.sh, op)).did == w.did + [[]]
  {
    var nothing: seq<Effect> := [];
    assert nothing + [] == nothing;
  }

  /** The handler of a save or of an incoming change, resumed with a good answer. */
  lemma ResumedTask(w: World, i: nat)
    requires Shaped(w) && i < |w.tasks| && !w.tasks[i].PreviewTab?
    ensures var n, r := Resume(w.sh, w.tasks[i], DONE_WELL), Step(w, Resumed(i, DONE_WELL));
            && r.sh == n.sh && r.tasks == w.tasks[i := n.task] && r.queue == w.queue && r.serial == w.serial
            && (n.effects == [] ==> r.did == w.did)
  {
    assert w.did[i] + [] == w.did[i] && w.did[i := w.did[i]] == w.did;
  }

  lemma WriteSteps(sh: Shared, s: Settings)
    ensures Resume(sh, SaveWrite(s), DONE_WELL) == Next(sh.(stored := Some(s), pendingReview := None), SaveSync(s), [])
    ensures Resume(sh, SaveSync(s), DONE_WELL) ==
            Next(sh.(synced := if s.syncEnabled then Some(SharedSettings(s)) else None), Done, [])
    ensures Resume(sh, SyncWrite(s), DONE_WELL) == Next(sh.(stored := Some(s), pendingReview := None), Done, [])
  {}

  /** A task that writes accepted settings and then shares them. */
  lemma SaveWritten(w: World, i: nat, s: Settings)
    requires Shaped(w) && i < |w.tasks| && w.tasks[i] == SaveWrite(s)
    ensures var r := Run(w, [Resumed(i, DONE_WELL), Resumed(i, DONE_WELL)]);
            && r.sh.stored == Some(s) && r.tasks == w.tasks[i := Done] && r.did == w.did
            && r.queue == w.queue && r.serial == w.serial
  {
    TwoEvents(w, Resumed(i, DONE_WELL), Resumed(i, DONE_WELL));
    ResumedTask(w, i);
    WriteSteps(w.sh, s);
    var b := Step(w, Resumed(i, DONE_WELL));
    ResumedTask(b, i);
    WriteSteps(b.sh, s);
  }

  lemma SaveAccepted(sh: Shared, v: RawSettings, s: Settings)
    requires NormalSettings(v) == Ok(s)
    ensures StartOp(sh, SaveOp(v, false)).task == SaveWrite(s)
  {}

  lemma SaveRun(w: World, v: RawSettings, s: Settings)
    requires Quiet(w) && NormalSettings(v) == Ok(s)
    ensures var r := Run(w, SaveEvents(|w.tasks|, v));
            && Quiet(r) && r.sh.stored == Some(s) && |r.tasks| == |w.tasks| + 1
            && r.did == w.did + [[]] && forall j | 0 <= j < |w.tasks| :: r.tasks[j] == w.tasks[j]
  {
    var i := |w.tasks|;
    OpStarts(w, SaveOp(v, false));
    SaveAccepted(w.sh, v, s);
    RunConcat(w, [Queued(SaveOp(v, false)), ChainMoves], [Resumed(i, DONE_WELL), Resumed(i, DONE_WELL)]);
    SaveWritten(Run(w, [Queued(SaveOp(v, false)), ChainMoves]), i, s);
  }

  lemma ChangeRead(w: World, i: nat, v: RawSettings)
    requires Shaped(w) && i < |w.tasks| && w.tasks[i] == SyncRead(v, None)
    ensures Step(w, StorageAnswers(i, true)) == w.(tasks := w.tasks[i := SyncRead(v, Some(Got(w.sh.stored)))])
  {}

  lemma SyncResumes(sh: Shared, v: RawSettings, got: Sample)
    ensures Resume(sh, SyncRead(v, Some(got)), DONE_WELL) == SyncCompared(sh, v, got)
  {
    var t := SyncRead(v, Some(got));
    assert !InBody(t);
    match t
    case SyncRead(_, Some(_)) =>
  }

  lemma StretchRuns(w: World, i: nat, n: Next)
    requires Shaped(w) && i < |w.tasks| && !w.tasks[i].PreviewTab? && n == Resume(w.sh, w.tasks[i], DONE_WELL)
    ensures var r := Step(w, Resumed(i, DONE_WELL));
            Shaped(r) && r.sh == n.sh && r.tasks == w.tasks[i := n.task]
  {}

  lemma ChangeCompared(w: World, i: nat, v: RawSettings, got: Sample, n: Next)
    requires Shaped(w) && i < |w.tasks| && w.tasks[i] == SyncRead(v, Some(got))
    requires n == SyncCompared(w.sh, v, got)
    ensures var r := Step(w, Resumed(i, DONE_WELL));
            Shaped(r) && i < |r.tasks| && r.tasks[i] == n.task
  {
    SyncResumes(w.sh, v, got);
    StretchRuns(w, i, n);
  }

  lemma ChangeWritten(w: World, i: nat, incoming: Settings)
    requires Shaped(w) && i < |w.tasks| && w.tasks[i] == SyncWrite(incoming)
    ensures Step(w, Resumed(i, DONE_WELL)).sh.stored == Some(incoming)
  {}

  lemma SyncChanges(sh: Shared, v: RawSettings, s: Settings, incoming: Settings)
    requires ReadOf(Got(Some(s))) == Ok(s) && s.syncEnabled && IncomingFor(s, v) == Some(incoming)
    ensures SyncCompared(sh, v, Got(Some(s))).task == SyncWrite(incoming)
  {}

  lemma EchoComes(w: World, s: Settings, sent: Settings)
    requires w.sh.stored == Some(s) && s.syncEnabled
    requires GoodSettings(s) && SettingsFit(s) && GoodSettings(sent) && SettingsFit(sent)
    requires SharedSettings(sent) != SharedSettings(s)
    ensures SyncCompared(w.sh, RawOf(SharedSettings(sent)), Got(w.sh.stored)).task == SyncWrite(SharedSettings(sent))
  {
    ReadStored(Some(s));
    EchoIncoming(s, sent);
    SyncChanges(w.sh, RawOf(SharedSettings(sent)), s, SharedSettings(sent));
  }

  lemma EchoRun(w: World, s: Settings, sent: Settings)
    requires Quiet(w) && w.sh.stored == Some(s) && s.syncEnabled
    requires GoodSettings(s) && SettingsFit(s) && GoodSettings(sent) && SettingsFit(sent)
    requires SharedSettings(sent) != SharedSettings(s)
    ensures Run(w, EchoEvents(|w.tasks|, RawOf(SharedSettings(sent)))).sh.stored == Some(SharedSettings(sent))
  {
    EchoComes(w, s, sent);
    ChangeRun(w, RawOf(SharedSettings(sent)), SharedSettings(sent));
  }

  lemma ChangeRun(w: World, v: RawSettings, incoming: Settings)
    requires Quiet(w) && SyncCompared(w.sh, v, Got(w.sh.stored)).task == SyncWrite(incoming)
    ensures Run(w, EchoEvents(|w.tasks|, v)).sh.stored == Some(incoming)
  {
    var i := |w.tasks|;
    OpStarts(w, SyncOp(v));
    RunConcat(w, [Queued(SyncOp(v)), ChainMoves],
        [StorageAnswers(i, true), Resumed(i, DONE_WELL), Resumed(i, DONE_WELL)]);
    var a := Run(w, [Queued(SyncOp(v)), ChainMoves]);
    ThreeEvents(a, StorageAnswers(i, true), Resumed(i, DONE_WELL), Resumed(i, DONE_WELL));
    ChangeRead(a, i, v);
    var b := Step(a, StorageAnswers(i, true));
    ChangeCompared(b, i, v, Got(w.sh.stored), SyncCompared(w.sh, v, Got(w.sh.stored)));
    ChangeWritten(Step(b, Resumed(i, DONE_WELL)), i, incoming);
  }

  function LateEcho(first: Settings, second: Settings): seq<Event> {
    SaveEvents(0, RawOf(first)) + (SaveEvents(1, RawOf(second)) + EchoEvents(2, RawOf(SharedSettings(first))))
  }

  /**
   Two saves, then the echo of the first: whenever the two share something else, the newer
   settings are lost and the first ones are back, with developer mode off.
   */
  lemma LateEchoReverts(first: Settings, second: Settings)
    requires GoodSettings(first) && SettingsFit(first) && GoodSettings(second) && SettingsFit(second)
    requires second.syncEnabled && SharedSettings(first) != SharedSettings(second)
    ensures Run(Fresh(None, None, None), LateEcho(first, second)).sh.stored == Some(SharedSettings(first))
  {
    var w0 := Fresh(None, None, None);
    var rest := SaveEvents(1, RawOf(second)) + EchoEvents(2, RawOf(SharedSettings(first)));
    SettingsReadBack(first);
    SettingsReadBack(second);
    RunConcat(w0, SaveEvents(0, RawOf(first)), rest);
    SaveRun(w0, RawOf(first), first);
    var w1 := Run(w0, SaveEvents(0, RawOf(first)));
    RunConcat(w1, SaveEvents(1, RawOf(second)), EchoEvents(2, RawOf(SharedSettings(first))));
    SaveRun(w1, RawOf(second), second);
    EchoRun(Run(w1, SaveEvents(1, RawOf(second))), second, first);
  }

  /** A theme changed from dark to light comes back dark, and developer mode goes off. */
  lemma ThemeComesBack()
    ensures var w := Run(Fresh(None, None, None), LateEcho(HOURLY, HOURLY.(theme := Light)));
            w.sh.stored == Some(SharedSettings(HOURLY)) && w.sh.stored.value.theme == Dark && !w.sh.stored.value.enabled
  {
    HourlyIsGood();
    assert SharedSettings(HOURLY).theme != SharedSettings(HOURLY.(theme := Light)).theme;
    LateEchoReverts(HOURLY, HOURLY.(theme := Light));
  }
}
