/** What every run of the cleaner's worker guarantees, whatever the order of its handlers. */
module CleanerSafety {
  import opened Wrappers
  import opened CleanerCore
  import opened CleanerTheorems
  import opened CleanerWorker
  import opened CleanerTraces
  import opened CleanerRuns

  /** A worker that has just been started over some stored values. */
  function Fresh(stored: Option<Settings>, review: Option<Review>, synced: Option<Settings>): World {
    World(Shared(stored, review, synced, map[], false), [], [], [], None, map[])
  }

  ghost predicate Reached(w: World) {
    exists stored, review, synced, events {:trigger Run(Fresh(stored, review, synced), events)} ::
      w == Run(Fresh(stored, review, synced), events)
  }

  lemma ReachedInv(w: World)
    requires Reached(w)
    ensures Inv(w)
  {
    var stored, review, synced, events :| w == Run(Fresh(stored, review, synced), events);
    RunKeepsInv(Fresh(stored, review, synced), events);
  }

  // ---------------------------------------------------------------- one body, one ticket, one use

  /** Of any two tasks at most one is in its body, `running` tells, and at most one ticket is live. */
  lemma OneCleanupAtATime(w: World, i: nat, j: nat)
    requires Reached(w) && i < j < |w.tasks|
    ensures !(InBody(w.tasks[i]) && InBody(w.tasks[j]))
    ensures InBody(w.tasks[i]) || InBody(w.tasks[j]) ==> w.sh.running
    ensures w.sh.running ==> exists k :: 0 <= k < |w.tasks| && InBody(w.tasks[k])
    ensures |w.sh.tickets| <= 1
  {
    ReachedInv(w);
  }

  lemma StartsFirst(w: World, i: nat, k: nat)
    requires Inv(w) && i < |w.did| && k < |w.did[i]| && w.did[i][k].Started?
    ensures k == 0 && StartOk(w.did[i][0], w.made) && Linked(w.tasks[i], w.did[i])
  {
    assert TaskOk(w.tasks[i], w.did[i], w.made);
  }

  lemma StartedToken(t: Task, did: seq<Effect>)
    requires Linked(t, did) && did != [] && did[0].Started? && !did[0].why.Automatic?
    ensures TokenOf(t, did) == Some(did[0].why.token)
  {}

  lemma ManualStart(w: World, i: nat, k: nat)
    requires Inv(w) && i < |w.did| && k < |w.did[i]| && w.did[i][k].Started? && !w.did[i][k].why.Automatic?
    ensures k == 0 && StartOk(w.did[i][0], w.made)
    ensures TokenOf(w.tasks[i], w.did[i]) == Some(w.did[i][0].why.token)
  {
    StartsFirst(w, i, k);
    StartedToken(w.tasks[i], w.did[i]);
  }

  lemma TokensDiffer(w: World, i: nat, j: nat)
    requires Inv(w) && i < |w.tasks| && j < |w.tasks|
    ensures Away(TokenOf(w.tasks[i], w.did[i]), w.sh.tickets, w.made)
    ensures i != j ==> Apart(TokenOf(w.tasks[i], w.did[i]), TokenOf(w.tasks[j], w.did[j]))
  {
    assert TokensOk(w);
    assert j < i ==> Apart(TokenOf(w.tasks[j], w.did[j]), TokenOf(w.tasks[i], w.did[i]));
  }

  /** A ticket starts at most one cleanup, over all tasks and restarts, and is gone once it has. */
  lemma TicketStartsOnce(w: World, i: nat, k: nat, j: nat, l: nat)
    requires Reached(w)
    requires i < |w.did| && k < |w.did[i]| && w.did[i][k].Started? && !w.did[i][k].why.Automatic?
    requires j < |w.did| && l < |w.did[j]| && w.did[j][l].Started? && !w.did[j][l].why.Automatic?
    ensures w.did[i][k].why.token == w.did[j][l].why.token ==> i == j && k == l
    ensures w.did[i][k].why.token !in w.sh.tickets
  {
    ReachedInv(w);
    ManualStart(w, i, k);
    ManualStart(w, j, l);
    TokensDiffer(w, i, j);
  }

  /**
   Every manual cleanup runs the plan of the preview that issued its ticket, which was made
   at most 60 s before `execute` picked the ticket up and from settings equal to those that
   `execute` then read; these have developer mode on.
   */
  lemma ManualStartsWerePreviewed(w: World, i: nat, k: nat)
    requires Reached(w)
    requires i < |w.did| && k < |w.did[i]| && w.did[i][k].Started? && !w.did[i][k].why.Automatic?
    ensures var e := w.did[i][k];
            && e.pick.Some? && e.read.Some? && e.why.token in w.made
            && var made := w.made[e.why.token];
               && made.plan == e.plan && made.settings == e.read.value && made.settings.enabled
               && e.pick.value.at - made.at <= 60_000
  {
    ReachedInv(w);
    ManualStart(w, i, k);
  }

  // ---------------------------------------------------------------- what is removed

  /** The start of the cleanup that issued a removal. */
  lemma IssuedHasStart(w: World, i: nat, k: nat)
    requires Inv(w) && i < |w.did| && k < |w.did[i]| && w.did[i][k].Issued?
    ensures 0 < k && StartOk(w.did[i][0], w.made)
    ensures w.did[i][k].why == w.did[i][0].why && w.did[i][k].call in w.did[i][0].plan.calls
  {
    var did := w.did[i];
    assert TaskOk(w.tasks[i], did, w.made);
    assert Headed(did) && SameReason(did);
    IssuedIsListed(did, k);
    assert IssuedCalls(did) <= did[0].plan.calls;
  }

  lemma {:induction false} IssuedIsListed(did: seq<Effect>, k: nat)
    requires k < |did| && did[k].Issued?
    ensures did[k].call in IssuedCalls(did)
  {
    if k < |did| - 1 {
      IssuedIsListed(did[..|did| - 1], k);
    }
  }

  /**
   A removal that no confirmed message asked for is of the two caches, with protected and
   extension origins off.
   */
  lemma UnconfirmedClearsOnlyCaches(w: World, i: nat, k: nat)
    requires Reached(w)
    requires i < |w.did| && k < |w.did[i]| && w.did[i][k].Issued? && !w.did[i][k].why.Confirmed?
    ensures var call := w.did[i][k].call;
            (call.t == Cache || call.t == CacheStorage) && !call.protectedWeb && !call.extension
  {
    ReachedInv(w);
    IssuedHasStart(w, i, k);
    SafeStart(w.did[i][0], w.made);
  }

  /** A cleanup that was not confirmed closes no window, and an automatic one reloads no tab. */
  lemma UnconfirmedClosesNothing(w: World, i: nat, k: nat)
    requires Reached(w)
    requires i < |w.did| && k < |w.did[i]|
    ensures w.did[i][k].WindowsClosed? ==> w.did[i][0].Started? && w.did[i][0].why.Confirmed?
    ensures w.did[i][k].Reloaded? ==> w.did[i][0].Started? && !w.did[i][0].why.Automatic?
  {
    ReachedInv(w);
    var did := w.did[i];
    assert TaskOk(w.tasks[i], did, w.made);
    assert Headed(did) && FollowsPlan(did) && StartOk(did[0], w.made);
    if did[0].plan.automaticSafe {
      SafeStart(did[0], w.made);
    }
  }

  /** A planned call covers exactly what the preset asks for its type, for the tab of the plan. */
  lemma PlannedIsAsked(p: Preset, tab: Url, now: int, plan: Plan, call: Call, o: Origin)
    requires PlanFor(Some(RawOfPreset(p)), tab, now).Ok?
    requires PlanFor(Some(RawOfPreset(p)), tab, now).value.calls == plan.calls && call in plan.calls
    ensures FilterCovers(call.filter, o) <==> Asked(RawOfPreset(p), tab, call.t, o)
  {
    var made := PlanFor(Some(RawOfPreset(p)), tab, now).value;
    PlanRemovesWhatWasAsked(RawOfPreset(p), tab, now, call.t, o);
    OneCallPerType(made, call, o);
  }

  lemma OneCallPerType(plan: Plan, call: Call, o: Origin)
    requires call in plan.calls
    requires forall i, j :: 0 <= i < j < |plan.calls| ==> plan.calls[i].t != plan.calls[j].t
    ensures Removes(plan, call.t, o) <==> FilterCovers(call.filter, o)
  {
    var i :| 0 <= i < |plan.calls| && plan.calls[i] == call;
    assert forall j | 0 <= j < |plan.calls| && plan.calls[j].t == call.t :: j == i;
  }

  /** The id in the preview message if it names one, else the active one; the automation's own. */
  function NamedId(e: Effect, made: map<Token, Made>): string
    requires e.Started? && e.read.Some?
  {
    if e.why.Automatic? then e.read.value.automation.presetId
    else if e.why.token in made && made[e.why.token].msg.presetId.Some?
        && made[e.why.token].msg.presetId.value != "" then
      made[e.why.token].msg.presetId.value
    else e.read.value.activePreset
  }

  lemma BehindIsNamed(e: Effect, made: map<Token, Made>)
    requires StartOk(e, made)
    ensures PresetBehind(e, made).Some? && PresetBehind(e, made).value.id == NamedId(e, made)
  {}

  /**
   End to end: a removal covers exactly what its preset asks for its type.  The preset is the
   one that the preview message or the automation setting names in the settings read at the
   start, and the tab is the one that the preview found; automation has none.
   */
  lemma RemovalsAreWhatWasAsked(w: World, i: nat, k: nat, o: Origin)
    requires Reached(w)
    requires i < |w.did| && k < |w.did[i]| && w.did[i][k].Issued?
    ensures var e, call := w.did[i][0], w.did[i][k].call;
            && e.Started? && e.why == w.did[i][k].why && e.read.Some?
            && PresetBehind(e, w.made).Some? && PresetBehind(e, w.made).value in e.read.value.presets
            && PresetBehind(e, w.made).value.id == NamedId(e, w.made)
            && (FilterCovers(call.filter, o) <==>
                  Asked(RawOfPreset(PresetBehind(e, w.made).value), TabBehind(e, w.made), call.t, o))
  {
    ReachedInv(w);
    IssuedHasStart(w, i, k);
    var e, call := w.did[i][0], w.did[i][k].call;
    StartIsPlanned(e, w.made);
    BehindIsNamed(e, w.made);
    var p, tab, now := PresetBehind(e, w.made).value, TabBehind(e, w.made), TimeBehind(e, w.made);
    assert PlanFor(Some(RawOfPreset(p)), tab, now).value.calls == e.plan.calls;
    PlannedIsAsked(p, tab, now, e.plan, call, o);
  }

  /**
   An automatic removal covers exactly what the preset named for automation asks without any
   tab, and no selected type of that preset has an active-tab rule.
   */
  lemma AutomationNeverUsesATab(w: World, i: nat, k: nat, o: Origin)
    requires Reached(w)
    requires i < |w.did| && k < |w.did[i]| && w.did[i][k].Issued? && w.did[i][k].why.Automatic?
    ensures w.did[i][0].Started? && w.did[i][0].read.Some?
    ensures var p, s := w.did[i][k].why.preset, w.did[i][0].read.value;
            && FindPreset(s, s.automation.presetId) == Some(p)
            && (match w.did[i][k].why.source
                case Startup => s.automation.startup
                case TabClose => s.automation.tabClose
                case Schedule => s.automation.minutes != 0)
            && (forall t <- p.types :: RuleFor(p, t).scope != Active)
            && (FilterCovers(w.did[i][k].call.filter, o) <==> Asked(RawOfPreset(p), NotAUrl, w.did[i][k].call.t, o))
  {
    ReachedInv(w);
    IssuedHasStart(w, i, k);
    RemovalsAreWhatWasAsked(w, i, k, o);
  }

  /**
   A manual cleanup whose preset looks at the active tab starts only when the tab that
   `execute` finds has the URL that the preview found.
   */
  lemma TabUnchangedSincePreview(w: World, i: nat, k: nat)
    requires Reached(w)
    requires i < |w.did| && k < |w.did[i]| && w.did[i][k].Started? && !w.did[i][k].why.Automatic?
    ensures var e := w.did[i][k];
            && PresetBehind(e, w.made).Some?
            && (UsesActive(PresetBehind(e, w.made).value) ==>
                  && e.seen.Some? && !e.seen.value.TabFailed?
                  && UrlText(e.seen.value) == UrlText(w.made[e.why.token].tab))
  {
    ReachedInv(w);
    ManualStart(w, i, k);
  }

  // ---------------------------------------------------------------- order and failure

  lemma PrefixOfTypes(calls: seq<Call>, k: nat)
    requires k <= |calls|
    ensures TypesOfCalls(calls[..k]) <= TypesOfCalls(calls)
  {}

  /**
   The removals a cleanup has issued are the first of its plan, in order, and what it reports
   as completed in the end is a prefix of the plan's types.
   */
  lemma RemovalsFollowThePlan(w: World, i: nat, k: nat)
    requires Reached(w) && i < |w.did| && k < |w.did[i]|
    ensures w.did[i][0].Started? && IssuedCalls(w.did[i]) <= w.did[i][0].plan.calls
    ensures w.did[i][k].Finished? ==> w.did[i][k].completed <= TypesOfCalls(w.did[i][0].plan.calls)
  {
    ReachedInv(w);
    var did := w.did[i];
    assert TaskOk(w.tasks[i], did, w.made);
    if did[k].Finished? {
      PrefixOfTypes(did[0].plan.calls, |did[k].completed|);
    }
  }

  /** At every moment of a cleanup all but perhaps the last removal it issued are completed. */
  lemma CompletedSoFar(w: World, i: nat)
    requires Reached(w) && i < |w.tasks| && InBody(w.tasks[i])
    ensures w.tasks[i].job.completed <= TypesOfCalls(w.tasks[i].job.plan.calls)
    ensures |w.tasks[i].job.completed| <= |IssuedCalls(w.did[i])| <= |w.tasks[i].job.completed| + 1
  {
    ReachedInv(w);
    assert TaskOk(w.tasks[i], w.did[i], w.made);
    PrefixOfTypes(w.tasks[i].job.plan.calls, |w.tasks[i].job.completed|);
  }

  /** After a failed removal the cleanup removes nothing, reloads nothing and closes nothing. */
  lemma FailureEndsTheCleanup(w: World, i: nat, k: nat, l: nat)
    requires Reached(w)
    requires i < |w.did| && k < l < |w.did[i]| && w.did[i][k].RemovalFailed?
    ensures w.did[i][l].Finished?
  {
    ReachedInv(w);
    assert TaskOk(w.tasks[i], w.did[i], w.made);
  }

  // ---------------------------------------------------------------- automation keeps the chain

  lemma OnlyTheChainStores(w: World, j: nat, x: Input)
    requires Inv(w) && j < |w.tasks|
    ensures Resume(w.sh, w.tasks[j], x).sh.stored != w.sh.stored ==> w.serial == Some(j) && !InBody(w.tasks[j])
  {
    assert TaskOk(w.tasks[j], w.did[j], w.made);
    ResumeLock(w.sh, w.tasks[j], x);
    if InBody(w.tasks[j]) {
      BodyTickets(w.sh, w.tasks[j], x);
    }
  }

  lemma OnlyResumesStore(w: World, e: Event)
    requires Shaped(w) && !e.Resumed?
    ensures Step(w, e).sh.stored == w.sh.stored
  {
    if e.Posted? {
      PostShape(w.sh, e.m);
    } else if e.ChainMoves? && w.queue != [] {
      StartShape(w.sh, w.queue[0]);
    }
  }

  lemma ResumedStores(w: World, i: nat, x: Input)
    requires Inv(w)
    ensures StepResumed(w, i, x).sh.stored != w.sh.stored ==>
              i < |w.tasks| && w.serial == Some(i) && !InBody(w.tasks[i])
  {
    if i < |w.tasks| {
      OnlyTheChainStores(w, i, x);
    }
  }

  lemma ResumedIs(w: World, e: Event)
    requires Shaped(w) && e.Resumed?
    ensures Step(w, e) == StepResumed(w, e.i, e.x)
  {}

  lemma SomeInChain(w: World, i: nat)
    requires i < |w.tasks| && w.serial == Some(i) && !InBody(w.tasks[i])
    ensures exists j :: 0 <= j < |w.tasks| && w.serial == Some(j) && !InBody(w.tasks[j])
  {}

  lemma ResumedMoves(w: World, e: Event)
    requires Inv(w) && e.Resumed?
    ensures Step(w, e).sh.stored != w.sh.stored ==>
              exists j :: 0 <= j < |w.tasks| && w.serial == Some(j) && !InBody(w.tasks[j])
  {
    ResumedIs(w, e);
    ResumedStores(w, e.i, e.x);
    if StepResumed(w, e.i, e.x).sh.stored != w.sh.stored {
      SomeInChain(w, e.i);
    }
  }

  /** Settings are stored only by the operation that the serialized chain is at. */
  lemma StoredMovesInChain(w: World, e: Event)
    requires Inv(w)
    ensures Step(w, e).sh.stored != w.sh.stored ==>
              exists j :: 0 <= j < |w.tasks| && w.serial == Some(j) && !InBody(w.tasks[j])
  {
    if e.Resumed? {
      ResumedMoves(w, e);
    } else {
      OnlyResumesStore(w, e);
    }
  }

  /**
   While an automatic cleanup runs no event changes the stored settings: a save or an
   incoming change waits behind it in the chain.
   */
  lemma AutomationHoldsSettings(w: World, i: nat, e: Event)
    requires Reached(w) && i < |w.tasks| && InBody(w.tasks[i]) && w.tasks[i].job.why.Automatic?
    ensures Step(w, e).sh.stored == w.sh.stored
  {
    ReachedInv(w);
    assert w.serial == Some(i);
    StoredMovesInChain(w, e);
  }

  /**
   Turning developer mode off therefore never stops an automatic cleanup between two
   removals: its check fails only when the read itself fails.
   */
  lemma AutomationIsNotStopped(w: World, i: nat)
    requires Reached(w) && i < |w.tasks| && w.tasks[i].Checking? && w.tasks[i].job.why.Automatic?
    requires w.tasks[i].got.Some?
    ensures Enabled(w.tasks[i].got.value) <==> w.tasks[i].got.value.Got?
  {
    ReachedInv(w);
  }

  // ---------------------------------------------------------------- turning developer mode off

  /** Removals issued by the first `n` tasks. */
  function Removals(did: seq<seq<Effect>>, n: nat): nat
    requires n <= |did|
  {
    if n == 0 then 0 else Removals(did, n - 1) + |IssuedCalls(did[n - 1])|
  }

  /** A removal that is already decided counts as issued. */
  function Charge(t: Task, did: seq<Effect>): nat {
    |IssuedCalls(did)| + if Armed(t) then 1 else 0
  }

  lemma AutomateCharge(sh: Shared, source: Source, s: Sample, x: Input)
    ensures var n := AutomateRead(sh, source, s, x);
            IssuedCalls([] + n.effects) == [] && !Armed(n.task)
  {
    var n := AutomateRead(sh, source, s, x);
    AutomateLock(sh, source, s, x);
    AutomateEffects(sh, source, s, x);
    if n.effects != [] {
      FirstEffect(n.effects[0]);
      assert [] + n.effects == [n.effects[0]];
    }
  }

  lemma AutomateEffects(sh: Shared, source: Source, s: Sample, x: Input)
    ensures |AutomateRead(sh, source, s, x).effects| <= 1
  {}

  lemma CheckCharge(sh: Shared, job: Job, s: Sample, did: seq<Effect>)
    ensures var n := CheckStretch(sh, job, s);
            Charge(n.task, did + n.effects) <= Charge(Checking(job, Some(s)), did)
  {
    var n := CheckStretch(sh, job, s);
    if n.effects == [] {
      assert did + n.effects == did;
    } else {
      IssuedSnoc(did, n.effects[0]);
    }
  }

  lemma BodyCharge(sh: Shared, t: Task, x: Input, did: seq<Effect>)
    requires InBody(t) && !t.Checking?
    ensures var n := BodyStretch(sh, t, x);
            Charge(n.task, did + n.effects) <= Charge(t, did)
  {
    var n := BodyStretch(sh, t, x);
    assert |n.effects| <= 1 && !Armed(n.task);
    if n.effects == [] {
      assert did + n.effects == did;
    } else {
      assert !n.effects[0].Issued?;
      IssuedSnoc(did, n.effects[0]);
      assert did + n.effects == did + [n.effects[0]];
    }
  }

  /** What a stretch before the body may add: nothing, or a start. */
  predicate AtMostStarts(n: Next) {
    !Armed(n.task) && (n.effects == [] || (|n.effects| == 1 && n.effects[0].Started?))
  }

  lemma StartsChargeNothing(n: Next)
    requires AtMostStarts(n)
    ensures Charge(n.task, [] + n.effects) == 0
  {
    if n.effects != [] {
      FirstEffect(n.effects[0]);
      assert [] + n.effects == [n.effects[0]];
    }
  }

  lemma BeginStarts(sh: Shared, job: Job, pick: Option<Pick>, read: Option<Settings>, seen: Option<TabAnswer>)
    ensures AtMostStarts(Begin(sh, job, pick, read, seen))
  {}

  lemma PreviewStarts(sh: Shared, t: Task, x: Input)
    requires t.PreviewTab?
    ensures AtMostStarts(PreviewIssued(sh, t, x))
  {}

  lemma TakingStarts(sh: Shared, why: Why, now: int)
    requires !why.Automatic?
    ensures AtMostStarts(Execute(sh, why, true, now))
  {}

  lemma ComparedStarts(sh: Shared, p: Pick, s: Sample)
    ensures AtMostStarts(ExecuteCompared(sh, p, s))
  {
    if ReadOf(s).Ok? {
      BeginStarts(sh, JobOf(p), Some(p), Some(ReadOf(s).value), None);
    }
  }

  lemma TabbedStarts(sh: Shared, p: Pick, read: Settings, tab: TabAnswer)
    ensures AtMostStarts(ExecuteTabbed(sh, p, read, tab))
  {
    BeginStarts(sh, JobOf(p), Some(p), Some(read), Some(tab));
  }

  lemma ManualStarts(sh: Shared, t: Task, x: Input)
    requires t.PreviewTab? || t.CleanGot? || t.ExecRead? || t.ExecTab?
    ensures AtMostStarts(Resume(sh, t, x))
  {
    match t
    case PreviewTab(_, _, _) => PreviewStarts(sh, t, x);
    case CleanGot(token, _) => TakingStarts(sh, OneClick(token), x.now);
    case ExecRead(p, Some(s)) => ComparedStarts(sh, p, s);
    case ExecRead(_, None) =>
    case ExecTab(p, read) => TabbedStarts(sh, p, read, x.tab);
  }

  /** A stretch spends its charge or keeps it. */
  lemma ResumeCharge(sh: Shared, t: Task, x: Input, did: seq<Effect>)
    requires Linked(t, did)
    ensures Charge(Resume(sh, t, x).task, did + Resume(sh, t, x).effects) <= Charge(t, did)
  {
    var n := Resume(sh, t, x);
    if t.Checking? {
      if t.got.Some? {
        CheckCharge(sh, t.job, t.got.value, did);
      } else {
        assert did + n.effects == did;
      }
    } else if InBody(t) {
      BodyCharge(sh, t, x, did);
    } else if Plain(t) {
      PlainOk(sh, t, x);
      assert did + n.effects == did;
    } else if t.AutoRead? {
      if t.got.Some? {
        AutomateCharge(sh, t.source, t.got.value, x);
      } else {
        assert did + n.effects == did;
      }
    } else {
      ManualStarts(sh, t, x);
      StartsChargeNothing(n);
    }
  }

  predicate SwitchedOff(w: World) {
    !Enabled(Got(w.sh.stored))
  }

  /** No task's charge has grown, and new tasks have none. */
  ghost predicate NoMoreCharge(w: World, r: World)
    requires Shaped(w) && Shaped(r)
  {
    && |w.tasks| <= |r.tasks|
    && (forall i | 0 <= i < |w.tasks| :: Charge(r.tasks[i], r.did[i]) <= Charge(w.tasks[i], w.did[i]))
    && (forall i | |w.tasks| <= i < |r.tasks| :: Charge(r.tasks[i], r.did[i]) == 0)
  }

  lemma LandCharge(w: World, i: nat, n: Next)
    requires Shaped(w) && i < |w.tasks|
    requires Charge(n.task, w.did[i] + n.effects) <= Charge(w.tasks[i], w.did[i])
    ensures NoMoreCharge(w, Land(w, i, n))
  {}

  lemma SpawnCharge(w: World, n: Next)
    requires Shaped(w) && n.effects == [] && !Armed(n.task)
    ensures NoMoreCharge(w, Land(Spawn(w), |w.tasks|, n))
  {
    assert [] + n.effects == [];
  }

  lemma OffPosted(w: World, m: Message)
    requires Shaped(w)
    ensures NoMoreCharge(w, StepPosted(w, m))
  {
    PostShape(w.sh, m);
    SpawnCharge(w, Post(w.sh, m));
  }

  lemma OffChain(w: World)
    requires Shaped(w)
    ensures NoMoreCharge(w, StepChain(w))
  {
    if w.queue != [] && ChainFree(w) {
      StartShape(w.sh, w.queue[0]);
      SpawnCharge(w, StartOp(w.sh, w.queue[0]));
    }
  }

  lemma SampledCharge(t: Task, s: Sample, did: seq<Effect>)
    requires !Enabled(s)
    ensures Charge(Sampled(t, s), did) <= Charge(t, did)
  {
    if t.Checking? && t.got.None? {
      assert Sampled(t, s) == Checking(t.job, Some(s));
    } else {
      assert Armed(Sampled(t, s)) ==> Armed(t);
    }
  }

  lemma OffRead(w: World, i: nat, ok: bool)
    requires Shaped(w) && SwitchedOff(w)
    ensures NoMoreCharge(w, StepRead(w, i, ok))
  {
    if i < |w.tasks| {
      SampledCharge(w.tasks[i], if ok then Got(w.sh.stored) else ReadFailed, w.did[i]);
    }
  }

  lemma OffResumed(w: World, i: nat, x: Input)
    requires Inv(w)
    ensures NoMoreCharge(w, StepResumed(w, i, x))
  {
    if i < |w.tasks| {
      assert TaskOk(w.tasks[i], w.did[i], w.made);
      ResumeCharge(w.sh, w.tasks[i], x, w.did[i]);
      LandCharge(w, i, Resume(w.sh, w.tasks[i], x));
    }
  }

  lemma OffKilled(w: World)
    requires Shaped(w)
    ensures NoMoreCharge(w, StepKilled(w))
  {}

  lemma OffStep(w: World, e: Event)
    requires Inv(w) && SwitchedOff(w)
    ensures NoMoreCharge(w, Step(w, e))
  {
    match e
    case Posted(m) => OffPosted(w, m);
    case ChainMoves => OffChain(w);
    case Resumed(i, x) => OffResumed(w, i, x);
    case Queued(_) =>
    case StorageAnswers(i, ok) => OffRead(w, i, ok);
    case Killed => OffKilled(w);
  }

  lemma NoMoreChargeTwice(w: World, m: World, r: World)
    requires Shaped(w) && Shaped(m) && Shaped(r) && NoMoreCharge(w, m) && NoMoreCharge(m, r)
    ensures NoMoreCharge(w, r)
  {}

  lemma OffLast(w: World, m: World, e: Event)
    requires Shaped(w) && Inv(m) && NoMoreCharge(w, m) && SwitchedOff(m)
    ensures NoMoreCharge(w, Step(m, e))
  {
    OffStep(m, e);
    NoMoreChargeTwice(w, m, Step(m, e));
  }

  ghost predicate OffAfter(w: World, events: seq<Event>)
    requires Shaped(w)
  {
    SwitchedOff(Run(w, events))
  }

  ghost predicate StaysOff(w: World, events: seq<Event>)
    requires Shaped(w)
  {
    forall n | 0 <= n < |events| :: OffAfter(w, events[..n])
  }

  lemma StaysOffBefore(w: World, events: seq<Event>)
    requires Shaped(w) && events != [] && StaysOff(w, events)
    ensures var front := events[..|events| - 1]; StaysOff(w, front) && OffAfter(w, front)
  {
    var front := events[..|events| - 1];
    forall n | 0 <= n < |front| ensures OffAfter(w, front[..n]) {
      assert front[..n] == events[..n];
    }
  }

  lemma {:induction false} OffRun(w: World, events: seq<Event>)
    requires Inv(w) && StaysOff(w, events)
    ensures NoMoreCharge(w, Run(w, events))
  {
    if events != [] {
      var front := events[..|events| - 1];
      StaysOffBefore(w, events);
      OffRun(w, front);
      RunKeepsInv(w, front);
      OffLast(w, Run(w, front), events[|events| - 1]);
    }
  }

  lemma {:induction false} RemovalsBound(w: World, r: World, armed: nat, n: nat)
    requires Shaped(w) && Shaped(r) && NoMoreCharge(w, r) && n <= |r.tasks|
    requires forall i: nat | i < |w.tasks| :: Armed(w.tasks[i]) ==> i == armed
    ensures Removals(r.did, n) <= Removals(w.did, if n <= |w.did| then n else |w.did|) + if armed < n then 1 else 0
  {
    if n > 0 {
      RemovalsBound(w, r, armed, n - 1);
      if n > |w.tasks| {
        assert Charge(r.tasks[n - 1], r.did[n - 1]) == 0;
      } else {
        assert Charge(r.tasks[n - 1], r.did[n - 1]) <= Charge(w.tasks[n - 1], w.did[n - 1]);
      }
    }
  }

  lemma TheArmed(w: World) returns (armed: nat)
    requires BodiesOk(w.sh.running, w.tasks)
    ensures forall i: nat | i < |w.tasks| :: Armed(w.tasks[i]) ==> i == armed
  {
    armed := 0;
    if exists i: nat :: i < |w.tasks| && Armed(w.tasks[i]) {
      armed :| armed < |w.tasks| && Armed(w.tasks[armed]);
      assert InBody(w.tasks[armed]);
    }
  }

  lemma OffBound(w: World, r: World)
    requires Shaped(w) && Shaped(r) && BodiesOk(w.sh.running, w.tasks) && NoMoreCharge(w, r)
    ensures Removals(r.did, |r.did|) <= Removals(w.did, |w.did|) + 1
  {
    var armed := TheArmed(w);
    RemovalsBound(w, r, armed, |r.tasks|);
  }

  /**
   Once settings with developer mode off are stored, and for as long as they stay, all
   cleanups together issue at most one further removal: the one already decided.
   */
  lemma SwitchingOffStopsCleanups(w: World, events: seq<Event>)
    requires Reached(w)
    requires forall n | 0 <= n < |events| :: SwitchedOff(Run(w, events[..n]))
    ensures Removals(Run(w, events).did, |Run(w, events).did|) <= Removals(w.did, |w.did|) + 1
  {
    ReachedInv(w);
    OffRun(w, events);
    OffBound(w, Run(w, events));
  }
}
