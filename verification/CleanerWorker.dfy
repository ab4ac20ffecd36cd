/**
 The service worker of the cleaner.  Handlers interleave at every await, so a handler is a
 task that runs in stretches: `Post`, `StartOp` and `Resume` each run one stretch from one
 await to the next, on the shared variables and on what the task carries over.
 */
module CleanerWorker {
  import opened Wrappers
  import opened CleanerCore
  import opened CleanerTheorems

  type Token = string

  const TICKET_TTL: int := 60_000

  // ---------------------------------------------------------------- settings as stored and shared

  /** A storage read as it arrives: the stored settings, if any, or a rejected call. */
  datatype Sample = Got(stored: Option<Settings>) | ReadFailed

  datatype ReadError = StorageError | Refused(problem: Problem)

  /** `readSettings`: stored settings are normalised again on every read. */
  function ReadOf(s: Sample): Result<Settings, ReadError> {
    match s
    case ReadFailed => Err(StorageError)
    case Got(None) => Ok(DEFAULTS)
    case Got(Some(x)) =>
      var r := NormalSettings(RawOf(x));
      if r.Err? then Err(Refused(r.error)) else Ok(r.value)
  }

  function SharedSettings(s: Settings): Settings {
    s.(enabled := false, syncEnabled := true, automation := Automation(0, false, false, s.activePreset))
  }

  /** What an incoming change of the synced item turns into, if it changes anything. */
  function IncomingFor(current: Settings, newValue: RawSettings): Option<Settings> {
    var first := NormalSettings(newValue);
    if first.Err? then None
    else
      var incoming := NormalSettings(RawOf(SharedSettings(first.value)));
      if incoming.Err? || incoming.value == SharedSettings(current) then None else Some(incoming.value)
  }

  function FindPreset(s: Settings, id: string): Option<Preset> {
    FindIn(s.presets, id)
  }

  function FindIn(ps: seq<Preset>, id: string): (r: Option<Preset>)
    ensures r.Some? ==> r.value in ps && r.value.id == id
  {
    if ps == [] then None else if ps[0].id == id then Some(ps[0]) else FindIn(ps[1..], id)
  }

  predicate UsesActive(p: Preset) {
    exists t <- p.types :: RuleFor(p, t).scope == Active
  }

  // ---------------------------------------------------------------- tabs, tickets, tasks

  datatype TabAnswer = TabFailed | NoTab | ATab(id: int, url: string, parsed: Url)

  function UrlText(t: TabAnswer): Option<string> {
    if t.ATab? then Some(t.url) else None
  }

  function TabId(t: TabAnswer): Option<int> {
    if t.ATab? then Some(t.id) else None
  }

  function Parsed(t: TabAnswer): Url {
    if t.ATab? then t.parsed else NotAUrl
  }

  datatype Ticket = Ticket(
    plan: Plan, requiresActive: bool, tabId: Option<int>, url: Option<string>, settings: Settings, expires: int)

  datatype Source = Startup | TabClose | Schedule

  datatype Review = Review(source: Source, presetId: string, at: int)

  /**
   Why a cleanup runs: a confirmed message, the one-click action, or a trigger with its preset
   and the time at which its plan was made.
   */
  datatype Why =
    | Confirmed(token: Token)
    | OneClick(token: Token)
    | Automatic(source: Source, preset: Preset, plannedAt: int)

  datatype Job = Job(plan: Plan, tabId: Option<int>, why: Why, completed: seq<DataType>)

  /** A ticket that `execute` took, and when. */
  datatype Pick = Pick(ticket: Ticket, why: Why, at: int)

  datatype PreviewMessage = PreviewMessage(tabId: Option<int>, presetId: Option<string>)

  /** Where a handler waits, with what it carries over. `got` is a storage read that has arrived. */
  datatype Task =
    | Done
    | PreviewRead(msg: PreviewMessage, clean: bool, got: Option<Sample>)
    | PreviewTab(settings: Settings, msg: PreviewMessage, clean: bool)
    | CleanGot(token: Token, plan: Plan)
    | ExecRead(pick: Pick, got: Option<Sample>)
    | ExecTab(pick: Pick, read: Settings)
    | Checking(job: Job, got: Option<Sample>)
    | Removing(job: Job)
    | Recording(job: Job)
    | ClearingReview(job: Job)
    | FollowRead(job: Job, got: Option<Sample>)
    | Listing(job: Job)
    | Closing(job: Job)
    | Reloading(job: Job)
    | FailRecording(job: Job)
    | Configuring(automatic: bool)
    | AutoRead(source: Source, got: Option<Sample>)
    | AutoReview(review: Review)
    | SaveWrite(settings: Settings)
    | SaveSync(settings: Settings)
    | SyncRead(newValue: RawSettings, got: Option<Sample>)
    | SyncWrite(incoming: Settings)
    | InstallRead(tooBig: bool, got: Option<Sample>)

  predicate InBody(t: Task) {
    t.Checking? || t.Removing? || t.Recording? || t.ClearingReview? || t.FollowRead? || t.Listing? || t.Closing?
    || t.Reloading? || t.FailRecording?
  }

  datatype Message =
    | PreviewAsked(msg: PreviewMessage)
    | CleanAsked
    | ExecuteAsked(token: Token, confirmed: bool, now: int)

  datatype Op =
    | SaveOp(value: RawSettings, tooBig: bool)
    | TriggerOp(source: Source)
    | SyncOp(newValue: RawSettings)
    | InstallOp(tooBig: bool)

  /** What the awaited call answers, and the clock and random values of the stretch. */
  datatype Input = Input(ok: bool, tab: TabAnswer, now: int, later: int, token: Token)

  datatype Effect =
    | Started(why: Why, plan: Plan, pick: Option<Pick>, read: Option<Settings>, seen: Option<TabAnswer>)
    | Issued(why: Why, call: Call)
    | RemovalFailed
    | Reloaded
    | WindowsClosed
    | Finished(plan: Plan, completed: seq<DataType>)

  /** The variables all handlers share: storage and the module variables. */
  datatype Shared = Shared(
    stored: Option<Settings>, pendingReview: Option<Review>, synced: Option<Settings>,
    tickets: map<Token, Ticket>, running: bool)

  /** One stretch: the shared variables after it, where the task waits next, what it did. */
  datatype Next = Next(sh: Shared, task: Task, effects: seq<Effect>)

  // ---------------------------------------------------------------- removeData

  function Advance(job: Job): Task {
    if |job.completed| >= |job.plan.calls| then Recording(job) else Checking(job, None)
  }

  /** `read` and `seen` are the settings and the tab that the handler looked at before. */
  function Begin(sh: Shared, job: Job, pick: Option<Pick>, read: Option<Settings>, seen: Option<TabAnswer>): Next {
    if sh.running then Next(sh, Done, [])
    else Next(sh.(running := true), Advance(job), [Started(job.why, job.plan, pick, read, seen)])
  }

  function Finish(sh: Shared, job: Job): Next {
    Next(sh.(running := false), Configuring(job.why.Automatic?), [Finished(job.plan, job.completed)])
  }

  function Enabled(s: Sample): bool {
    ReadOf(s).Ok? && ReadOf(s).value.enabled
  }

  function CheckStretch(sh: Shared, job: Job, s: Sample): Next {
    if |job.completed| >= |job.plan.calls| || !Enabled(s) then Next(sh, FailRecording(job), [])
    else Next(sh, Removing(job), [Issued(job.why, job.plan.calls[|job.completed|])])
  }

  function RemovedStretch(sh: Shared, job: Job, ok: bool): Next {
    if !ok || |job.completed| >= |job.plan.calls| then Next(sh, FailRecording(job), [RemovalFailed])
    else Next(sh, Advance(job.(completed := job.completed + [job.plan.calls[|job.completed|].t])), [])
  }

  /** The two stretches around one removal. */
  function CallStretch(sh: Shared, job: Job, s: Sample, ok: bool): Next {
    var checked := CheckStretch(sh, job, s);
    if !checked.task.Removing? then checked
    else
      var removed := RemovedStretch(sh, job, ok);
      Next(sh, removed.task, checked.effects + removed.effects)
  }

  lemma OneCall(sh: Shared, job: Job, s: Sample, ok: bool)
    requires |job.completed| < |job.plan.calls|
    ensures var n, call := CallStretch(sh, job, s, ok), job.plan.calls[|job.completed|];
            && n.task == (if Enabled(s) && ok then Advance(job.(completed := job.completed + [call.t]))
                else FailRecording(job))
            && IssuedCalls(n.effects) == if Enabled(s) then [call] else []
  {
    var call := job.plan.calls[|job.completed|];
    var issued := Issued(job.why, call);
    assert [issued][..0] == [] && [issued, RemovalFailed][..1] == [issued];
    assert IssuedCalls([issued]) == [call];
  }

  function FollowStretch(sh: Shared, job: Job, s: Sample): Next {
    if ReadOf(s).Err? then Next(sh, FailRecording(job), [])
    else if job.plan.closeWindows && Enabled(s) then Next(sh, Listing(job), [])
    else if job.plan.reload && !job.plan.closeWindows && Enabled(s) && job.tabId.Some? then
        Next(sh, Reloading(job), [Reloaded])
    else Finish(sh, job)
  }

  function BodyStretch(sh: Shared, t: Task, x: Input): Next
    requires InBody(t)
  {
    match t
    case Checking(job, got) => if got.None? then Next(sh, t, []) else CheckStretch(sh, job, got.value)
    case Removing(job) => RemovedStretch(sh, job, x.ok)
    case Recording(job) => Next(sh, if x.ok then ClearingReview(job) else FailRecording(job), [])
    case ClearingReview(job) =>
      if x.ok then Next(sh.(pendingReview := None), FollowRead(job, None), []) else Next(sh, FailRecording(job), [])
    case FollowRead(job, got) => if got.None? then Next(sh, t, []) else FollowStretch(sh, job, got.value)
    case Listing(job) => if x.ok then Next(sh, Closing(job), [WindowsClosed]) else Next(sh, FailRecording(job), [])
    case Closing(job) => if x.ok then Finish(sh, job) else Next(sh, FailRecording(job), [])
    case Reloading(job) => Finish(sh, job)
    case FailRecording(job) => Finish(sh, job)
  }

  // ---------------------------------------------------------------- preview and execute

  function PreviewChecked(sh: Shared, t: Task, s: Sample): Next
    requires t.PreviewRead?
  {
    var r := ReadOf(s);
    if r.Err? || !r.value.enabled || sh.running then Next(sh, Done, [])
    else Next(sh, PreviewTab(r.value, t.msg, t.clean), [])
  }

  /** The preset that a preview message names, or the active one. */
  function NamedPreset(settings: Settings, msg: PreviewMessage): Option<Preset> {
    FindPreset(settings, if msg.presetId.Some? && msg.presetId.value != "" then msg.presetId.value
        else settings.activePreset)
  }

  /** The ticket a preview would issue. */
  function TicketFor(settings: Settings, msg: PreviewMessage, x: Input): Option<Ticket> {
    if x.tab.TabFailed? then None
    else
      var selected := NamedPreset(settings, msg);
      if selected.None? then None
      else
        var plan := PlanFor(Some(RawOfPreset(selected.value)), Parsed(x.tab), x.now);
        if plan.Err? then None
        else Some(Ticket(plan.value, UsesActive(selected.value), TabId(x.tab), UrlText(x.tab), settings,
            x.later + TICKET_TTL))
  }

  function PreviewIssued(sh: Shared, t: Task, x: Input): Next
    requires t.PreviewTab?
  {
    var ticket := TicketFor(t.settings, t.msg, x);
    if ticket.None? then Next(sh, Done, [])
    else Next(sh.(tickets := map[x.token := ticket.value]), if t.clean then CleanGot(x.token, ticket.value.plan)
        else Done, [])
  }

  function Execute(sh: Shared, why: Why, confirmed: bool, now: int): Next
    requires !why.Automatic?
  {
    var left := sh.(tickets := sh.tickets - {why.token});
    if why.token !in sh.tickets || sh.tickets[why.token].expires < now || !confirmed then Next(left, Done, [])
    else Next(left, ExecRead(Pick(sh.tickets[why.token], why, now), None), [])
  }

  function JobOf(p: Pick): Job {
    Job(p.ticket.plan, p.ticket.tabId, p.why, [])
  }

  function ExecuteCompared(sh: Shared, p: Pick, s: Sample): Next {
    var r := ReadOf(s);
    if r.Err? || !r.value.enabled || r.value != p.ticket.settings then Next(sh, Done, [])
    else if p.ticket.requiresActive then Next(sh, ExecTab(p, r.value), [])
    else Begin(sh, JobOf(p), Some(p), Some(r.value), None)
  }

  function ExecuteTabbed(sh: Shared, p: Pick, read: Settings, tab: TabAnswer): Next {
    if tab.TabFailed? || UrlText(tab) != p.ticket.url then Next(sh, Done, [])
    else Begin(sh, JobOf(p), Some(p), Some(read), Some(tab))
  }

  // ---------------------------------------------------------------- serialized operations

  function SourceOn(s: Settings, source: Source): bool {
    match source
    case Startup => s.automation.startup
    case TabClose => s.automation.tabClose
    case Schedule => s.automation.minutes != 0
  }

  function AutomateRead(sh: Shared, source: Source, s: Sample, x: Input): Next {
    var r := ReadOf(s);
    if r.Err? || !r.value.enabled || sh.running || !SourceOn(r.value, source) then Next(sh, Done, [])
    else
      var selected := FindPreset(r.value, r.value.automation.presetId);
      if selected.None? then Next(sh, Done, [])
      else AutomateSelected(sh, source, selected.value, r.value, x)
  }

  function AutomateSelected(sh: Shared, source: Source, p: Preset, read: Settings, x: Input): Next {
    var queued := Next(sh, AutoReview(Review(source, p.id, x.now)), []);
    if UsesActive(p) then queued
    else
      var probe := PlanFor(Some(RawOfPreset(p)), NotAUrl, x.now);
      if probe.Err? then Next(sh, Done, [])
      else if !probe.value.automaticSafe then queued
      else
        var plan := PlanFor(Some(RawOfPreset(p)), NotAUrl, x.later);
        if plan.Err? then Next(sh, Done, [])
        else Begin(sh, Job(plan.value.(reload := false), None, Automatic(source, p, x.later), []), None, Some(read),
            None)
  }

  /** The part of `saveSettings` before its first await. */
  function SaveStart(sh: Shared, value: RawSettings, tooBig: bool): Next {
    var s := NormalSettings(value);
    if s.Err? || (s.value.syncEnabled && tooBig) then Next(sh, Done, [])
    else Next(sh.(tickets := map[]), SaveWrite(s.value), [])
  }

  function SyncCompared(sh: Shared, newValue: RawSettings, s: Sample): Next {
    var r := ReadOf(s);
    if r.Err? || !r.value.syncEnabled then Next(sh, Done, [])
    else
      var incoming := IncomingFor(r.value, newValue);
      if incoming.None? then Next(sh, Done, []) else Next(sh.(tickets := map[]), SyncWrite(incoming.value), [])
  }

  // ---------------------------------------------------------------- one stretch

  function Post(sh: Shared, m: Message): Next {
    match m
    case PreviewAsked(msg) => Next(sh, PreviewRead(msg, false, None), [])
    case CleanAsked => Next(sh, PreviewRead(PreviewMessage(None, None), true, None), [])
    case ExecuteAsked(token, confirmed, now) => Execute(sh, Confirmed(token), confirmed, now)
  }

  /** A startup also reads once before `automate`; that read only delays or stops it. */
  function StartOp(sh: Shared, op: Op): Next {
    match op
    case SaveOp(value, tooBig) => SaveStart(sh, value, tooBig)
    case TriggerOp(source) => Next(sh, AutoRead(source, None), [])
    case SyncOp(newValue) => Next(sh, SyncRead(newValue, None), [])
    case InstallOp(tooBig) => Next(sh, InstallRead(tooBig, None), [])
  }

  function Resume(sh: Shared, t: Task, x: Input): Next {
    if InBody(t) then BodyStretch(sh, t, x)
    else
      match t
      case PreviewRead(_, _, Some(s)) => PreviewChecked(sh, t, s)
      case PreviewTab(_, _, _) => PreviewIssued(sh, t, x)
      case CleanGot(token, plan) => if plan.automaticSafe then Execute(sh, OneClick(token), true, x.now)
          else Next(sh, Done, [])
      case ExecRead(pick, Some(s)) => ExecuteCompared(sh, pick, s)
      case ExecTab(pick, read) => ExecuteTabbed(sh, pick, read, x.tab)
      case AutoRead(source, Some(s)) => AutomateRead(sh, source, s, x)
      case AutoReview(review) => Next(if x.ok then sh.(pendingReview := Some(review)) else sh, Done, [])
      case SaveWrite(s) => if x.ok then Next(sh.(stored := Some(s), pendingReview := None), SaveSync(s), [])
          else Next(sh, Done, [])
      case SaveSync(s) =>
        Next(if x.ok then sh.(synced := if s.syncEnabled then Some(SharedSettings(s)) else None) else sh, Done, [])
      case SyncRead(newValue, Some(s)) => SyncCompared(sh, newValue, s)
      case SyncWrite(s) => Next(if x.ok then sh.(stored := Some(s), pendingReview := None) else sh, Done, [])
      case InstallRead(tooBig, Some(s)) =>
        if ReadOf(s).Err? then Next(sh, Done, []) else SaveStart(sh, RawOf(ReadOf(s).value), tooBig)
      case Configuring(_) => Next(sh, Done, [])
      case _ => Next(sh, t, [])
  }

  /** The moment the browser reads storage for a waiting task. */
  function Sampled(t: Task, s: Sample): Task {
    match t
    case PreviewRead(msg, clean, None) => PreviewRead(msg, clean, Some(s))
    case ExecRead(pick, None) => ExecRead(pick, Some(s))
    case Checking(job, None) => Checking(job, Some(s))
    case FollowRead(job, None) => FollowRead(job, Some(s))
    case AutoRead(source, None) => AutoRead(source, Some(s))
    case SyncRead(newValue, None) => SyncRead(newValue, Some(s))
    case InstallRead(tooBig, None) => InstallRead(tooBig, Some(s))
    case _ => t
  }

  // ---------------------------------------------------------------- the module variables in place

  class Worker {
    var stored: Option<Settings>
    var pendingReview: Option<Review>
    var synced: Option<Settings>
    var tickets: map<Token, Ticket>
    var running: bool

    ghost function Snapshot(): Shared
      reads this
    {
      Shared(stored, pendingReview, synced, tickets, running)
    }

    constructor ()
      ensures Snapshot() == Shared(None, None, None, map[], false)
    {
      stored, pendingReview, synced, tickets, running := None, None, None, map[], false;
    }

    method IssueTicket(t: Task, x: Input) returns (task: Task)
      requires t.PreviewTab?
      modifies this
      ensures Next(Snapshot(), task, []) == PreviewIssued(old(Snapshot()), t, x)
    {
      var ticket := TicketFor(t.settings, t.msg, x);
      if ticket.None? {
        return Done;
      }
      tickets := map[];
      tickets := tickets[x.token := ticket.value];
      task := if t.clean then CleanGot(x.token, ticket.value.plan) else Done;
    }

    method TakeTicket(why: Why, confirmed: bool, now: int) returns (task: Task)
      requires !why.Automatic?
      modifies this
      ensures Next(Snapshot(), task, []) == Execute(old(Snapshot()), why, confirmed, now)
    {
      var ticket := if why.token in tickets then Some(tickets[why.token]) else None;
      tickets := tickets - {why.token};
      if ticket.None? || ticket.value.expires < now || !confirmed {
        return Done;
      }
      task := ExecRead(Pick(ticket.value, why, now), None);
    }

    method BeginRemoval(job: Job, pick: Option<Pick>, read: Option<Settings>, seen: Option<TabAnswer>)
      returns (task: Task, effects: seq<Effect>)
      modifies this
      ensures Next(Snapshot(), task, effects) == Begin(old(Snapshot()), job, pick, read, seen)
    {
      if running {
        return Done, [];
      }
      running := true;
      task, effects := Advance(job), [Started(job.why, job.plan, pick, read, seen)];
    }

    /**
     The loop of `removeData`: before each call a read, `samples(i)`, and after it the
     browser's answer, `removes(i)`.  Without other handlers in between, the completed
     types are the types of the calls before the first refusal.
     */
    method RemoveCalls(job: Job, samples: nat -> Sample, removes: nat -> bool)
        returns (task: Task, effects: seq<Effect>)
      requires job.completed == []
      ensures task.Recording? || task.FailRecording?
      ensures task.job.plan == job.plan && task.job.why == job.why
      ensures var k := |task.job.completed|;
              && k <= |job.plan.calls|
              && task.job.completed == TypesOfCalls(job.plan.calls[..k])
              && (task.Recording? <==> k == |job.plan.calls|)
              && (forall i | 0 <= i < k :: Enabled(samples(i)) && removes(i))
              && (k < |job.plan.calls| ==> !Enabled(samples(k)) || !removes(k))
              && |IssuedCalls(effects)| == (if k < |job.plan.calls| && Enabled(samples(k)) then k + 1 else k)
    {
      task, effects := Advance(job), [];
      var i := 0;
      while task.Checking?
        invariant Progress(job, samples, removes, i, task, effects)
        decreases |job.plan.calls| - i, task.Checking?
      {
        var called := CallStretch(Shared(stored, pendingReview, synced, tickets, running), task.job, samples(i),
            removes(i));
        ProgressStep(Snapshot(), job, samples, removes, i, task, effects);
        effects := effects + called.effects;
        task := called.task;
        if !task.FailRecording? {
          i := i + 1;
        }
      }
      assert LetsGo(samples)(i) == Enabled(samples(i));
      forall j: nat | j < i ensures Enabled(samples(j)) && removes(j) {
        assert LetsGo(samples)(j);
      }
    }

    method AutomateRun(source: Source, s: Sample, x: Input) returns (task: Task, effects: seq<Effect>)
      modifies this
      ensures Next(Snapshot(), task, effects) == AutomateRead(old(Snapshot()), source, s, x)
    {
      var r := ReadOf(s);
      if r.Err? || !r.value.enabled || running {
        return Done, [];
      }
      if !SourceOn(r.value, source) {
        return Done, [];
      }
      var selected := FindPreset(r.value, r.value.automation.presetId);
      if selected.None? {
        return Done, [];
      }
      var p := selected.value;
      if !UsesActive(p) {
        var probe := MakePlan(Some(RawOfPreset(p)), NotAUrl, x.now);
        if probe.Err? {
          return Done, [];
        }
        if probe.value.automaticSafe {
          var plan := MakePlan(Some(RawOfPreset(p)), NotAUrl, x.later);
          if plan.Err? {
            return Done, [];
          }
          task, effects := BeginRemoval(Job(plan.value.(reload := false), None, Automatic(source, p, x.later), []),
              None,
              Some(r.value), None);
          return;
        }
      }
      task, effects := AutoReview(Review(source, p.id, x.now)), [];
    }

    method SaveBegin(value: RawSettings, tooBig: bool) returns (task: Task)
      modifies this
      ensures Next(Snapshot(), task, []) == SaveStart(old(Snapshot()), value, tooBig)
    {
      var s := NormalSettings(value);
      if s.Err? || (s.value.syncEnabled && tooBig) {
        return Done;
      }
      tickets := map[];
      task := SaveWrite(s.value);
    }

    method SyncApply(newValue: RawSettings, s: Sample) returns (task: Task)
      modifies this
      ensures Next(Snapshot(), task, []) == SyncCompared(old(Snapshot()), newValue, s)
    {
      var r := ReadOf(s);
      if r.Err? || !r.value.syncEnabled {
        return Done;
      }
      var incoming := IncomingFor(r.value, newValue);
      if incoming.None? {
        return Done;
      }
      tickets := map[];
      task := SyncWrite(incoming.value);
    }
  }

  /** Where the loop of `removeData` waits after `i` removals. */
  ghost predicate LoopTask(job: Job, i: nat, task: Task) {
    && i <= |job.plan.calls|
    && (task.Checking? || task.Recording? || task.FailRecording?)
    && task.job == job.(completed := TypesOfCalls(job.plan.calls[..i]))
    && (task.Recording? <==> i == |job.plan.calls|)
  }

  /** Which samples let a removal go. */
  function LetsGo(samples: nat -> Sample): nat -> bool {
    (j: nat) => Enabled(samples(j))
  }

  /** What the samples and answers so far were, and how many calls that made it issue. */
  ghost predicate LoopAnswers(on: nat -> bool, removes: nat -> bool, i: nat, failed: bool, sent: nat) {
    && (forall j: nat | j < i :: on(j) && removes(j))
    && (failed ==> !on(i) || !removes(i))
    && sent == if failed && on(i) then i + 1 else i
  }

  ghost predicate Progress(job: Job, samples: nat -> Sample, removes: nat -> bool, i: nat, task: Task,
      effects: seq<Effect>) {
    LoopTask(job, i, task) && LoopAnswers(LetsGo(samples), removes, i, task.FailRecording?, |IssuedCalls(effects)|)
  }

  lemma LoopTaskStep(sh: Shared, job: Job, i: nat, task: Task, s: Sample, ok: bool)
    requires LoopTask(job, i, task) && task.Checking?
    ensures var n := CallStretch(sh, task.job, s, ok);
            && i < |job.plan.calls|
            && (n.task.FailRecording? <==> !(Enabled(s) && ok))
            && |IssuedCalls(n.effects)| == (if Enabled(s) then 1 else 0)
            && LoopTask(job, if n.task.FailRecording? then i else i + 1, n.task)
  {
    OneCall(sh, task.job, s, ok);
    assert job.plan.calls[..i + 1] == job.plan.calls[..i] + [job.plan.calls[i]];
    assert TypesOfCalls(job.plan.calls[..i + 1]) == TypesOfCalls(job.plan.calls[..i]) + [job.plan.calls[i].t];
  }

  lemma LoopAnswersStep(on: nat -> bool, removes: nat -> bool, i: nat)
    requires LoopAnswers(on, removes, i, false, i)
    ensures var failed := !(on(i) && removes(i));
            LoopAnswers(on, removes, if failed then i else i + 1, failed, if on(i) then i + 1 else i)
  {}

  lemma ProgressStep(
    sh: Shared, job: Job, samples: nat -> Sample, removes: nat -> bool, i: nat, task: Task, effects: seq<Effect>)
    requires Progress(job, samples, removes, i, task, effects) && task.Checking?
    ensures var n := CallStretch(sh, task.job, samples(i), removes(i));
            && i < |job.plan.calls|
            && Progress(job, samples, removes, if n.task.FailRecording? then i else i + 1, n.task, effects + n.effects)
  {
    LoopTaskStep(sh, job, i, task, samples(i), removes(i));
    LoopAnswersStep(LetsGo(samples), removes, i);
    IssuedAppend(effects, CallStretch(sh, task.job, samples(i), removes(i)).effects);
  }

  function TypesOfCalls(calls: seq<Call>): (r: seq<DataType>)
    ensures |r| == |calls|
  {
    seq(|calls|, i requires 0 <= i < |calls| => calls[i].t)
  }

  function IssuedCalls(effects: seq<Effect>): seq<Call> {
    if effects == [] then []
    else
      var e := effects[|effects| - 1];
      IssuedCalls(effects[..|effects| - 1]) + if e.Issued? then [e.call] else []
  }

  lemma {:induction false} IssuedAppend(a: seq<Effect>, b: seq<Effect>)
    ensures IssuedCalls(a + b) == IssuedCalls(a) + IssuedCalls(b)
  {
    if b == [] {
      assert a + b == a;
    } else {
      IssuedAppend(a, b[..|b| - 1]);
      assert (a + b)[..|a + b| - 1] == a + b[..|b| - 1];
    }
  }
}
