/**
 What one handler may have done by the time it waits somewhere: facts about a task and the
 effects it has had, kept by every stretch it runs.
 */
module CleanerTraces {
  import opened Wrappers
  import opened CleanerCore
  import opened CleanerTheorems
  import opened CleanerWorker

  /** What a preview issued, when, and from which message, settings, tab and clock. */
  datatype Made = Made(at: int, msg: PreviewMessage, settings: Settings, tab: TabAnswer, plannedAt: int, plan: Plan)

  /** The plan is the one made from the preset that the message named, for the tab then found. */
  ghost predicate MadeOk(m: Made) {
    && NamedPreset(m.settings, m.msg).Some?
    && PlanFor(Some(RawOfPreset(NamedPreset(m.settings, m.msg).value)), Parsed(m.tab), m.plannedAt) == Ok(m.plan)
  }

  /** An unattended plan: made from the preset without any tab, and without a reload. */
  ghost predicate AutoPlanned(plan: Plan, p: Preset, now: int) {
    && PlanFor(Some(RawOfPreset(p)), NotAUrl, now).Ok?
    && plan == PlanFor(Some(RawOfPreset(p)), NotAUrl, now).value.(reload := false)
  }

  predicate SafeCall(c: Call) {
    (c.t == Cache || c.t == CacheStorage) && !c.protectedWeb && !c.extension
  }

  predicate Unconfirmed(why: Why) {
    !why.Confirmed?
  }

  // ---------------------------------------------------------------- how a cleanup may start

  ghost predicate TicketOk(token: Token, k: Ticket, made: map<Token, Made>) {
    token in made && Issues(k, made[token]) && MadeOk(made[token])
  }

  /** The ticket says what its preview found. */
  ghost predicate Issues(k: Ticket, m: Made) {
    && m.at == k.expires - TICKET_TTL && m.settings == k.settings && m.plan == k.plan && UrlText(m.tab) == k.url
    && NamedPreset(m.settings, m.msg).Some?
    && k.requiresActive == UsesActive(NamedPreset(m.settings, m.msg).value)
  }

  ghost predicate PickOk(p: Pick, made: map<Token, Made>) {
    && !p.why.Automatic?
    && TicketOk(p.why.token, p.ticket, made)
    && p.at <= p.ticket.expires
    && (p.why.OneClick? ==> p.ticket.plan.automaticSafe)
  }

  /**
   A manual cleanup runs the plan of a preview at most 60 s older than the pick, made from
   the settings then read; if its preset looks at the active tab, the tab still has its URL.
   */
  ghost predicate ManualStartOk(e: Effect, made: map<Token, Made>)
    requires e.Started? && e.read.Some? && !e.why.Automatic?
  {
    && e.pick.Some? && e.pick.value.why == e.why && e.why.token in made
    && var m := made[e.why.token];
       && MadeOk(m) && m.plan == e.plan && m.settings == e.read.value && e.pick.value.at - m.at <= TICKET_TTL
       && (UsesActive(NamedPreset(m.settings, m.msg).value) ==>
             e.seen.Some? && !e.seen.value.TabFailed? && UrlText(e.seen.value) == UrlText(m.tab))
  }

  /**
   An automatic cleanup runs the plan of the preset that the settings name for automation,
   for a trigger they switch on; no rule of that preset looks at the active tab.
   */
  ghost predicate AutoStartOk(e: Effect)
    requires e.Started? && e.read.Some? && e.why.Automatic?
  {
    && FindPreset(e.read.value, e.read.value.automation.presetId) == Some(e.why.preset)
    && !UsesActive(e.why.preset) && SourceOn(e.read.value, e.why.source)
    && AutoPlanned(e.plan, e.why.preset, e.why.plannedAt)
  }

  ghost predicate StartOk(e: Effect, made: map<Token, Made>) {
    && e.Started? && e.read.Some? && e.read.value.enabled
    && (Unconfirmed(e.why) ==> e.plan.automaticSafe)
    && if e.why.Automatic? then AutoStartOk(e) else ManualStartOk(e, made)
  }

  /** The preset a cleanup was planned from, and the tab its plan was made for. */
  function PresetBehind(e: Effect, made: map<Token, Made>): Option<Preset>
    requires e.Started?
  {
    if e.why.Automatic? then Some(e.why.preset)
    else if e.why.token in made then NamedPreset(made[e.why.token].settings, made[e.why.token].msg)
    else None
  }

  function TabBehind(e: Effect, made: map<Token, Made>): Url
    requires e.Started?
  {
    if !e.why.Automatic? && e.why.token in made then Parsed(made[e.why.token].tab) else NotAUrl
  }

  /** When its plan was made. */
  function TimeBehind(e: Effect, made: map<Token, Made>): int
    requires e.Started?
  {
    if e.why.Automatic? then e.why.plannedAt else if e.why.token in made then made[e.why.token].plannedAt else 0
  }

  /** Every start has a plan made from its preset and its tab, but for the reload. */
  lemma StartIsPlanned(e: Effect, made: map<Token, Made>)
    requires StartOk(e, made)
    ensures PresetBehind(e, made).Some? && PresetBehind(e, made).value in e.read.value.presets
    ensures var plan :=
              PlanFor(Some(RawOfPreset(PresetBehind(e, made).value)), TabBehind(e, made), TimeBehind(e, made));
            plan.Ok? && plan.value.(reload := e.plan.reload) == e.plan
  {}

  lemma SafeStart(e: Effect, made: map<Token, Made>)
    requires StartOk(e, made) && e.plan.automaticSafe
    ensures !e.plan.closeWindows && forall c <- e.plan.calls :: SafeCall(c)
  {
    StartIsPlanned(e, made);
    UnfilterableOnlyWhole(Some(RawOfPreset(PresetBehind(e, made).value)), TabBehind(e, made), TimeBehind(e, made));
  }

  // ---------------------------------------------------------------- what a cleanup may have done

  ghost predicate Headed(did: seq<Effect>) {
    did != [] ==> did[0].Started? && forall j | 1 <= j < |did| :: !did[j].Started?
  }

  /** The removals issued are the planned calls, in order, up to some point. */
  ghost predicate InPlanOrder(did: seq<Effect>) {
    did != [] && did[0].Started? ==> IssuedCalls(did) <= did[0].plan.calls
  }

  ghost predicate SameReason(did: seq<Effect>) {
    forall j | 0 < j < |did| && did[j].Issued? :: did[0].Started? && did[j].why == did[0].why
  }

  predicate IsPrefixOf(completed: seq<DataType>, plan: Plan) {
    |completed| <= |plan.calls| && completed == TypesOfCalls(plan.calls[..|completed|])
  }

  ghost predicate ReportsPrefix(did: seq<Effect>) {
    forall j | 0 < j < |did| && did[j].Finished? ::
      did[0].Started? && did[j].plan == did[0].plan && IsPrefixOf(did[j].completed, did[0].plan)
  }

  /** After a failed removal nothing is removed, reloaded or closed. */
  ghost predicate StopsAtFailure(did: seq<Effect>) {
    forall i, j | 0 <= i < j < |did| && did[i].RemovalFailed? :: did[j].Finished?
  }

  ghost predicate FollowsPlan(did: seq<Effect>) {
    forall j | 0 < j < |did| ::
      && (did[j].WindowsClosed? ==> did[0].Started? && did[0].plan.closeWindows)
      && (did[j].Reloaded? ==> did[0].Started? && did[0].plan.reload && !did[0].plan.closeWindows)
  }

  ghost predicate Trace(did: seq<Effect>) {
    Headed(did) && InPlanOrder(did) && SameReason(did) && ReportsPrefix(did) && StopsAtFailure(did) && FollowsPlan(did)
  }

  predicate Failed(did: seq<Effect>) {
    exists e <- did :: e.RemovalFailed?
  }

  /** What may be added to a trace. */
  ghost predicate MayAdd(did: seq<Effect>, e: Effect)
    requires did != [] && did[0].Started?
  {
    match e
    case Started(_, _, _, _, _) => false
    case Issued(why, call) =>
      !Failed(did) && why == did[0].why && IssuedCalls(did) + [call] <= did[0].plan.calls
    case RemovalFailed => !Failed(did)
    case Reloaded => !Failed(did) && did[0].plan.reload && !did[0].plan.closeWindows
    case WindowsClosed => !Failed(did) && did[0].plan.closeWindows
    case Finished(plan, completed) => plan == did[0].plan && IsPrefixOf(completed, plan)
  }

  lemma IssuedSnoc(did: seq<Effect>, e: Effect)
    ensures IssuedCalls(did + [e]) == IssuedCalls(did) + (if e.Issued? then [e.call] else [])
  {
    assert (did + [e])[..|did|] == did;
  }

  lemma StopsSnoc(did: seq<Effect>, e: Effect)
    requires StopsAtFailure(did) && did != [] && (Failed(did) ==> e.Finished?)
    ensures StopsAtFailure(did + [e])
  {
    var longer := did + [e];
    forall i, j | 0 <= i < j < |longer| && longer[i].RemovalFailed?
      ensures longer[j].Finished?
    {
      assert longer[i] == did[i] && did[i] in did;
    }
  }

  lemma TraceSnoc(did: seq<Effect>, e: Effect)
    requires Trace(did) && did != [] && MayAdd(did, e)
    ensures Trace(did + [e])
  {
    IssuedSnoc(did, e);
    StopsSnoc(did, e);
    var longer := did + [e];
    assert longer[0] == did[0] && longer[|did|] == e;
    assert forall j | 0 <= j < |did| :: longer[j] == did[j];
  }

  // ---------------------------------------------------------------- where a task waits and what it did

  predicate BeforeBody(t: Task) {
    !InBody(t) && !t.Configuring? && !t.Done?
  }

  predicate JobOk(job: Job) {
    |job.completed| <= |job.plan.calls| && job.completed == TypesOfCalls(job.plan.calls[..|job.completed|])
  }

  predicate AfterAll(t: Task) {
    t.Recording? || t.ClearingReview? || t.FollowRead? || t.Listing? || t.Closing? || t.Reloading?
  }

  /** How many calls a task in its body has issued. */
  predicate SentOk(t: Task, sent: nat)
    requires InBody(t)
  {
    var k := |t.job.completed|;
    && (t.Checking? ==> sent == k && k < |t.job.plan.calls|)
    && (t.Removing? ==> sent == k + 1 && k < |t.job.plan.calls|)
    && (AfterAll(t) ==> sent == k == |t.job.plan.calls|)
    && (t.FailRecording? ==> k <= sent <= k + 1)
  }

  ghost predicate Linked(t: Task, did: seq<Effect>) {
    && (BeforeBody(t) ==> did == [])
    && (InBody(t) ==>
          && did != [] && did[0].Started? && did[0].why == t.job.why && did[0].plan == t.job.plan
          && JobOk(t.job) && SentOk(t, |IssuedCalls(did)|)
          && (Failed(did) ==> t.FailRecording?)
          && (t.Listing? ==> t.job.plan.closeWindows))
  }

  /** `Checking` holds a read that lets the next removal go. */
  predicate Armed(t: Task) {
    t.Checking? && t.got.Some? && Enabled(t.got.value)
  }

  lemma FailedSnoc(did: seq<Effect>, e: Effect)
    ensures Failed(did + [e]) <==> Failed(did) || e.RemovalFailed?
  {
    var longer := did + [e];
    if Failed(did) {
      var x :| x in did && x.RemovalFailed?;
      assert x in longer;
    }
    assert e in longer;
  }

  ghost predicate Kept(n: Next, did: seq<Effect>) {
    Linked(n.task, did + n.effects) && Trace(did + n.effects)
  }

  lemma KeptQuiet(n: Next, did: seq<Effect>)
    requires n.effects == [] && Linked(n.task, did) && Trace(did)
    ensures Kept(n, did)
  {
    assert did + n.effects == did;
  }

  lemma SendKeeps(sh: Shared, job: Job, got: Option<Sample>, did: seq<Effect>)
    requires Linked(Checking(job, got), did) && Trace(did)
    ensures Kept(Next(sh, Removing(job), [Issued(job.why, job.plan.calls[|job.completed|])]), did)
  {
    var k := |job.completed|;
    var e := Issued(job.why, job.plan.calls[k]);
    assert job.plan.calls[..k] + [job.plan.calls[k]] == job.plan.calls[..k + 1];
    IssuedSnoc(did, e);
    FailedSnoc(did, e);
    TraceSnoc(did, e);
  }

  lemma CheckKeeps(sh: Shared, job: Job, s: Sample, did: seq<Effect>)
    requires Linked(Checking(job, Some(s)), did) && Trace(did)
    ensures Kept(CheckStretch(sh, job, s), did)
  {
    var n := CheckStretch(sh, job, s);
    if n.task.Removing? {
      SendKeeps(sh, job, Some(s), did);
    } else {
      KeptQuiet(n, did);
    }
  }

  lemma RemovedKeeps(sh: Shared, job: Job, ok: bool, did: seq<Effect>)
    requires Linked(Removing(job), did) && Trace(did)
    ensures Kept(RemovedStretch(sh, job, ok), did)
  {
    var n := RemovedStretch(sh, job, ok);
    var k := |job.completed|;
    if ok {
      assert TypesOfCalls(job.plan.calls[..k + 1]) == TypesOfCalls(job.plan.calls[..k]) + [job.plan.calls[k].t];
      KeptQuiet(n, did);
    } else {
      IssuedSnoc(did, RemovalFailed);
      FailedSnoc(did, RemovalFailed);
      TraceSnoc(did, RemovalFailed);
    }
  }

  lemma FinishKeeps(sh: Shared, t: Task, did: seq<Effect>)
    requires InBody(t) && Linked(t, did) && Trace(did)
    ensures Kept(Finish(sh, t.job), did)
  {
    TraceSnoc(did, Finished(t.job.plan, t.job.completed));
  }

  lemma ActKeeps(sh: Shared, t: Task, next: Task, e: Effect, did: seq<Effect>)
    requires InBody(t) && Linked(t, did) && Trace(did) && AfterAll(t)
    requires next.Reloading? || next.Closing?
    requires next.job == t.job && MayAdd(did, e) && (e.Reloaded? || e.WindowsClosed?)
    ensures Kept(Next(sh, next, [e]), did)
  {
    IssuedSnoc(did, e);
    FailedSnoc(did, e);
    TraceSnoc(did, e);
  }

  lemma FollowKeeps(sh: Shared, job: Job, s: Sample, did: seq<Effect>)
    requires Linked(FollowRead(job, Some(s)), did) && Trace(did)
    ensures Kept(FollowStretch(sh, job, s), did)
  {
    var t, n := FollowRead(job, Some(s)), FollowStretch(sh, job, s);
    if n.task.Reloading? {
      ActKeeps(sh, t, n.task, Reloaded, did);
    } else if n.task.Configuring? {
      FinishKeeps(sh, t, did);
    } else {
      KeptQuiet(n, did);
    }
  }

  lemma ListingKeeps(sh: Shared, job: Job, x: Input, did: seq<Effect>)
    requires Linked(Listing(job), did) && Trace(did)
    ensures Kept(BodyStretch(sh, Listing(job), x), did)
  {
    if x.ok {
      ActKeeps(sh, Listing(job), Closing(job), WindowsClosed, did);
    } else {
      KeptQuiet(BodyStretch(sh, Listing(job), x), did);
    }
  }

  /** Every stretch of a cleanup keeps its trace in order. */
  lemma BodyKeeps(sh: Shared, t: Task, x: Input, did: seq<Effect>)
    requires InBody(t) && Linked(t, did) && Trace(did)
    ensures Kept(BodyStretch(sh, t, x), did)
  {
    var n := BodyStretch(sh, t, x);
    match t
    case Checking(job, Some(s)) => CheckKeeps(sh, job, s, did);
    case Removing(job) => RemovedKeeps(sh, job, x.ok, did);
    case FollowRead(job, Some(s)) => FollowKeeps(sh, job, s, did);
    case Listing(job) => ListingKeeps(sh, job, x, did);
    case _ =>
      if n.task.Configuring? {
        FinishKeeps(sh, t, did);
      } else {
        KeptQuiet(n, did);
      }
  }

  // ---------------------------------------------------------------- a task and the previews made so far

  ghost predicate HoldOk(t: Task, made: map<Token, Made>) {
    match t
    case CleanGot(token, plan) => token in made && made[token].plan == plan
    case ExecRead(pick, _) => PickOk(pick, made)
    case ExecTab(pick, read) => PickOk(pick, made) && read == pick.ticket.settings && read.enabled
    case _ => true
  }

  ghost predicate StartedOk(did: seq<Effect>, made: map<Token, Made>) {
    did != [] ==> StartOk(did[0], made)
  }

  ghost predicate TaskOk(t: Task, did: seq<Effect>, made: map<Token, Made>) {
    Linked(t, did) && Trace(did) && HoldOk(t, made) && StartedOk(did, made)
  }

  ghost predicate NextOk(n: Next, did: seq<Effect>, made: map<Token, Made>) {
    TaskOk(n.task, did + n.effects, made)
  }

  ghost predicate TicketsOk(tickets: map<Token, Ticket>, made: map<Token, Made>) {
    |tickets| <= 1 && forall token <- tickets :: TicketOk(token, tickets[token], made)
  }

  ghost predicate Extends(made: map<Token, Made>, more: map<Token, Made>) {
    forall token <- made :: token in more && more[token] == made[token]
  }

  lemma TaskOkExtends(t: Task, did: seq<Effect>, made: map<Token, Made>, more: map<Token, Made>)
    requires TaskOk(t, did, made) && Extends(made, more)
    ensures TaskOk(t, did, more)
  {}

  lemma IdleOk(n: Next, made: map<Token, Made>)
    requires n.effects == [] && !InBody(n.task) && HoldOk(n.task, made)
    ensures NextOk(n, [], made)
  {
    assert [] + n.effects == [];
  }

  lemma FirstEffect(e: Effect)
    requires e.Started?
    ensures Trace([e]) && IssuedCalls([e]) == [] && !Failed([e])
  {
    assert [e][..0] == [];
  }

  lemma FirstWait(job: Job, e: Effect)
    requires job.completed == [] && e.Started? && e.why == job.why && e.plan == job.plan
    ensures Linked(Advance(job), [e]) && Trace([e])
  {
    FirstEffect(e);
    assert TypesOfCalls(job.plan.calls[..0]) == [];
  }

  lemma BeginOk(
    sh: Shared, job: Job, pick: Option<Pick>, read: Option<Settings>, seen: Option<TabAnswer>, made: map<Token, Made>)
    requires job.completed == []
    requires StartOk(Started(job.why, job.plan, pick, read, seen), made)
    ensures NextOk(Begin(sh, job, pick, read, seen), [], made)
  {
    var n := Begin(sh, job, pick, read, seen);
    if sh.running {
      IdleOk(n, made);
    } else {
      var e := Started(job.why, job.plan, pick, read, seen);
      FirstWait(job, e);
      assert [] + n.effects == [e];
    }
  }

  function MadeOf(s: Settings, msg: PreviewMessage, x: Input, plan: Plan): Made {
    Made(x.later, msg, s, x.tab, x.now, plan)
  }

  lemma TicketForOk(s: Settings, msg: PreviewMessage, x: Input)
    requires TicketFor(s, msg, x).Some?
    ensures var k := TicketFor(s, msg, x).value;
            k.settings == s && Issues(k, MadeOf(s, msg, x, k.plan)) && MadeOk(MadeOf(s, msg, x, k.plan))
  {}

  /** A one-click run that passes the worker's own check holds a safe plan. */
  lemma ExecuteOk(sh: Shared, why: Why, confirmed: bool, now: int, made: map<Token, Made>)
    requires !why.Automatic? && TicketsOk(sh.tickets, made)
    requires why.OneClick? ==> why.token in made && made[why.token].plan.automaticSafe
    ensures NextOk(Execute(sh, why, confirmed, now), [], made)
    ensures TicketsOk(Execute(sh, why, confirmed, now).sh.tickets, made)
  {
    var n := Execute(sh, why, confirmed, now);
    ExecuteHolds(sh, why, confirmed, now, made);
    ExecuteShape(sh, why, confirmed, now);
    IdleOk(n, made);
    TakenTickets(sh.tickets, why.token, made);
  }

  lemma ExecuteShape(sh: Shared, why: Why, confirmed: bool, now: int)
    requires !why.Automatic?
    ensures var n := Execute(sh, why, confirmed, now);
            n.effects == [] && !InBody(n.task) && n.sh.tickets == sh.tickets - {why.token}
  {}

  lemma TakenTickets(tickets: map<Token, Ticket>, token: Token, made: map<Token, Made>)
    requires TicketsOk(tickets, made)
    ensures TicketsOk(tickets - {token}, made)
  {
    RemoveKey(tickets, token);
  }

  lemma ExecuteHolds(sh: Shared, why: Why, confirmed: bool, now: int, made: map<Token, Made>)
    requires !why.Automatic? && TicketsOk(sh.tickets, made)
    requires why.OneClick? ==> why.token in made && made[why.token].plan.automaticSafe
    ensures HoldOk(Execute(sh, why, confirmed, now).task, made)
  {}

  lemma RemoveKey(m: map<Token, Ticket>, token: Token)
    ensures |m - {token}| <= |m|
    ensures forall x <- m - {token} :: x in m && (m - {token})[x] == m[x]
  {
    assert (m - {token}).Keys == m.Keys - {token};
    if token in m {
      assert m.Keys == (m.Keys - {token}) + {token};
    } else {
      assert m - {token} == m;
    }
  }

  lemma PickStarts(p: Pick, read: Settings, seen: Option<TabAnswer>, made: map<Token, Made>)
    requires PickOk(p, made) && read == p.ticket.settings && read.enabled
    requires p.ticket.requiresActive ==> seen.Some? && !seen.value.TabFailed? && UrlText(seen.value) == p.ticket.url
    ensures StartOk(Started(p.why, p.ticket.plan, Some(p), Some(read), seen), made)
  {}

  lemma ComparedOk(sh: Shared, p: Pick, s: Sample, made: map<Token, Made>)
    requires PickOk(p, made)
    ensures NextOk(ExecuteCompared(sh, p, s), [], made)
  {
    var n, r := ExecuteCompared(sh, p, s), ReadOf(s);
    if r.Err? || !r.value.enabled || r.value != p.ticket.settings || p.ticket.requiresActive {
      IdleOk(n, made);
    } else {
      PickStarts(p, r.value, None, made);
      BeginOk(sh, JobOf(p), Some(p), Some(r.value), None, made);
    }
  }

  lemma TabbedOk(sh: Shared, p: Pick, read: Settings, tab: TabAnswer, made: map<Token, Made>)
    requires HoldOk(ExecTab(p, read), made)
    ensures NextOk(ExecuteTabbed(sh, p, read, tab), [], made)
  {
    if tab.TabFailed? || UrlText(tab) != p.ticket.url {
      IdleOk(ExecuteTabbed(sh, p, read, tab), made);
    } else {
      PickStarts(p, read, Some(tab), made);
      BeginOk(sh, JobOf(p), Some(p), Some(read), Some(tab), made);
    }
  }

  lemma SafeAtAnyTime(p: Preset, tab: Url, now: int, later: int)
    requires PlanFor(Some(RawOfPreset(p)), tab, now).Ok? && PlanFor(Some(RawOfPreset(p)), tab, later).Ok?
    ensures PlanFor(Some(RawOfPreset(p)), tab, now).value.automaticSafe
         == PlanFor(Some(RawOfPreset(p)), tab, later).value.automaticSafe
  {}

  lemma SelectedOk(sh: Shared, source: Source, p: Preset, read: Settings, x: Input, made: map<Token, Made>)
    requires FindPreset(read, read.automation.presetId) == Some(p) && read.enabled && SourceOn(read, source)
    ensures NextOk(AutomateSelected(sh, source, p, read, x), [], made)
  {
    var n := AutomateSelected(sh, source, p, read, x);
    var probe := PlanFor(Some(RawOfPreset(p)), NotAUrl, x.now);
    var plan := PlanFor(Some(RawOfPreset(p)), NotAUrl, x.later);
    if UsesActive(p) || probe.Err? || !probe.value.automaticSafe || plan.Err? {
      IdleOk(n, made);
    } else {
      SafeAtAnyTime(p, NotAUrl, x.now, x.later);
      AutoStarts(source, p, read, x.later, made);
      BeginOk(sh, Job(plan.value.(reload := false), None, Automatic(source, p, x.later), []), None, Some(read), None,
          made);
    }
  }

  lemma AutoStarts(source: Source, p: Preset, read: Settings, now: int, made: map<Token, Made>)
    requires FindPreset(read, read.automation.presetId) == Some(p) && read.enabled && SourceOn(read, source)
    requires !UsesActive(p)
    requires PlanFor(Some(RawOfPreset(p)), NotAUrl, now).Ok?
             && PlanFor(Some(RawOfPreset(p)), NotAUrl, now).value.automaticSafe
    ensures var plan := PlanFor(Some(RawOfPreset(p)), NotAUrl, now).value.(reload := false);
            StartOk(Started(Automatic(source, p, now), plan, None, Some(read), None), made)
  {}

  lemma AutomateOk(sh: Shared, source: Source, s: Sample, x: Input, made: map<Token, Made>)
    ensures NextOk(AutomateRead(sh, source, s, x), [], made)
  {
    var n, r := AutomateRead(sh, source, s, x), ReadOf(s);
    if r.Err? || !r.value.enabled || sh.running || !SourceOn(r.value, source)
       || FindPreset(r.value, r.value.automation.presetId).None? {
      IdleOk(n, made);
    } else {
      SelectedOk(sh, source, FindPreset(r.value, r.value.automation.presetId).value, r.value, x, made);
    }
  }
}
