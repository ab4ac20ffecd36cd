/**
 Sign-ins under every interleaving: a run is any sequence of locked sections, taken by any
 number of requests that are in flight at once.
 */
module SignInRuns {
  import opened Wrappers
  import opened SignIn
  import opened FiniteSets

  /** A callback between its two locked sections holds the sign-in it took. */
  datatype Held = Held(state: string, login: PendingLogin)

  /** A session's origin: its sign-in, when that was checked, and the nonce its token carried. */
  datatype Birth = Birth(state: string, user: User, at: int, checkedAt: int, nonce: string)

  /**
   `issued`, `born`, `ended` and `lapsed` are history: sign-ins handed out, sessions ever
   opened, sessions logged out or revoked, sessions dropped because a check found them expired.
   */
  datatype Desk = Desk(
    pending: Pendings, sessions: Sessions, held: map<nat, Held>,
    issued: Pendings, born: map<string, Birth>, ended: set<string>, lapsed: set<string>)

  const EMPTY := Desk(map[], map[], map[], map[], map[], {}, {})

  datatype Event =
    | Login(now: int, state: string, nonce: string, verifier: string)
    | Take(thread: nat, state: string)
    | Open(thread: nat, now: int, error: string, code: string, ex: Exchange, group: string, sid: string, openedAt: int)
    | GiveUp(thread: nat)
    | Check(sid: string, now: int)
    | Logout(sid: string)
    | Revoke(sub: string)

  function LoginStep(d: Desk, now: int, state: string, nonce: string, verifier: string): Desk {
    if state in d.issued then d
    else d.(pending := LoginSection(d.pending, now, state, nonce, verifier).0,
            issued := d.issued[state := PendingLogin(verifier, nonce, now + LOGIN_TTL)])
  }

  function TakeStep(d: Desk, thread: nat, state: string): Desk {
    if thread in d.held then d else
    var (pending, taken) := TakeSection(d.pending, state);
    d.(pending := pending, held := if taken.Some? then d.held[thread := Held(state, taken.value)] else d.held)
  }

  function NonceOf(ex: Exchange): string {
    if ex.Tokens? && ex.idToken.Verified? then ex.idToken.nonce else ""
  }

  function TakenBy(d: Desk, thread: nat): Option<PendingLogin> {
    if thread in d.held then Some(d.held[thread].login) else None
  }

  function OpenStep(d: Desk, thread: nat, vetted: Result<User, CallbackError>, sid: string, now: int, checkedAt: int,
      nonce: string): Desk {
    if thread !in d.held || sid in d.born then d
    else if vetted.Err? then d.(held := d.held - {thread})
    else d.(held := d.held - {thread},
            sessions := OpenSection(d.sessions, sid, vetted.value, now),
            born := d.born[sid := Birth(d.held[thread].state, vetted.value, now, checkedAt, nonce)])
  }

  function OpenEvent(d: Desk, e: Event): Desk
    requires e.Open?
  {
    OpenStep(d, e.thread, Vet(TakenBy(d, e.thread), e.now, e.error, e.code, e.ex, e.group), e.sid, e.openedAt, e.now,
        NonceOf(e.ex))
  }

  function CheckStep(d: Desk, sid: string, now: int): Desk {
    var (sessions, user) := CurrentSection(d.sessions, sid, now);
    d.(sessions := sessions, lapsed := if sid in d.sessions && user.None? then d.lapsed + {sid} else d.lapsed)
  }

  function LogoutStep(d: Desk, sid: string): Desk {
    d.(sessions := d.sessions - {sid}, ended := if sid in d.born then d.ended + {sid} else d.ended)
  }

  function RevokeStep(d: Desk, sub: string): Desk {
    d.(sessions := RevokeSection(d.sessions, sub),
       ended := d.ended + set sid | sid in d.sessions && d.sessions[sid].user.sub == sub)
  }

  /**
   One locked section of some request.  Fresh random values are new: a login that would
   reuse a state, an open that would reuse a session id and a callback that would reuse a
   thread do not happen.
   */
  function Step(d: Desk, e: Event): Desk {
    match e
    case Login(now, state, nonce, verifier) => LoginStep(d, now, state, nonce, verifier)
    case Take(thread, state) => TakeStep(d, thread, state)
    case Open(_, _, _, _, _, _, _, _) => OpenEvent(d, e)
    case GiveUp(thread) => d.(held := d.held - {thread})
    case Check(sid, now) => CheckStep(d, sid, now)
    case Logout(sid) => LogoutStep(d, sid)
    case Revoke(sub) => RevokeStep(d, sub)
  }

  function Run(events: seq<Event>): Desk {
    if events == [] then EMPTY else Step(Run(events[..|events| - 1]), events[|events| - 1])
  }

  /** A state is in at most one place: pending, held by one callback, or behind one session. */
  ghost predicate StatesApart(d: Desk) {
    PendingApart(d) && HeldApart(d) && BornApart(d)
  }

  ghost predicate PendingApart(d: Desk) {
    && (forall s <- d.pending :: s in d.issued)
    && (forall t <- d.held :: d.held[t].state in d.issued && d.held[t].state !in d.pending)
    && (forall i <- d.born :: d.born[i].state in d.issued && d.born[i].state !in d.pending)
  }

  ghost predicate HeldApart(d: Desk) {
    && (forall t, u | t in d.held && u in d.held && t != u :: d.held[t].state != d.held[u].state)
    && (forall i, t | i in d.born && t in d.held :: d.born[i].state != d.held[t].state)
  }

  ghost predicate BornApart(d: Desk) {
    forall i, j | i in d.born && j in d.born && i != j :: d.born[i].state != d.born[j].state
  }

  /** The sessions are those opened and neither ended nor lapsed, each as it was opened. */
  ghost predicate SessionsExact(d: Desk) {
    && d.ended <= d.born.Keys && d.lapsed <= d.born.Keys
    && (forall sid :: sid in d.sessions <==> sid in d.born && sid !in d.ended && sid !in d.lapsed)
    && (forall sid <- d.sessions :: d.sessions[sid] == Session(d.born[sid].user, d.born[sid].at + SESSION_TTL))
    && (forall sid <- d.born :: d.born[sid].user.sub != "")
  }

  ghost predicate Inv(d: Desk) {
    |d.pending| <= MAX_PENDING && StatesApart(d) && SessionsExact(d)
  }

  lemma LoginBound(pending: Pendings, now: int, state: string, nonce: string, verifier: string)
    requires |pending| <= MAX_PENDING
    ensures var (p, ok) := LoginSection(pending, now, state, nonce, verifier);
            && |p| <= MAX_PENDING
            && p.Keys <= pending.Keys + {state}
            && (ok <==> state in p && p[state] == PendingLogin(verifier, nonce, now + LOGIN_TTL)
                        && |Prune(pending, now)| < MAX_PENDING)
  {
    var live := Prune(pending, now);
    SubmapCard(live, pending);
    if |live| < MAX_PENDING {
      var p := live[state := PendingLogin(verifier, nonce, now + LOGIN_TTL)];
      assert p.Keys == live.Keys + {state};
      assert |p| == |p.Keys| && |live| == |live.Keys|;
      SubsetCard(live.Keys - {state}, live.Keys);
      assert p.Keys == (live.Keys - {state}) + {state};
    }
  }

  lemma NewPendingKeepsInv(d: Desk, p: Pendings, state: string, login: PendingLogin)
    requires Inv(d) && state !in d.issued && |p| <= MAX_PENDING && p.Keys <= d.pending.Keys + {state}
    ensures Inv(d.(pending := p, issued := d.issued[state := login]))
  {
    NewPendingApart(d, p, state, login);
  }

  lemma NewPendingApart(d: Desk, p: Pendings, state: string, login: PendingLogin)
    requires StatesApart(d) && state !in d.issued && p.Keys <= d.pending.Keys + {state}
    ensures StatesApart(d.(pending := p, issued := d.issued[state := login]))
  {
    assert PendingApart(d) && HeldApart(d) && BornApart(d);
    assert forall s <- p :: s in d.pending || s == state;
  }

  lemma LoginKeepsInv(d: Desk, now: int, state: string, nonce: string, verifier: string)
    requires Inv(d)
    ensures Inv(LoginStep(d, now, state, nonce, verifier))
  {
    LoginBound(d.pending, now, state, nonce, verifier);
    if state !in d.issued {
      NewPendingKeepsInv(d, LoginSection(d.pending, now, state, nonce, verifier).0, state,
                         PendingLogin(verifier, nonce, now + LOGIN_TTL));
    }
  }

  lemma TakeKeepsApart(d: Desk, thread: nat, state: string)
    requires Inv(d)
    ensures StatesApart(TakeStep(d, thread, state))
  {
  }

  lemma TakeKeepsInv(d: Desk, thread: nat, state: string)
    requires Inv(d)
    ensures Inv(TakeStep(d, thread, state))
  {
    SubmapCard(d.pending - {state}, d.pending);
    TakeKeepsApart(d, thread, state);
    assert SessionsExact(TakeStep(d, thread, state));
  }

  lemma OpenKeepsApart(
    d: Desk, thread: nat, vetted: Result<User, CallbackError>, sid: string, now: int, checkedAt: int, nonce: string)
    requires StatesApart(d)
    ensures StatesApart(OpenStep(d, thread, vetted, sid, now, checkedAt, nonce))
  {
    var d' := OpenStep(d, thread, vetted, sid, now, checkedAt, nonce);
    assert PendingApart(d');
    assert BornApart(d');
  }

  lemma OpenKeepsSessions(
    d: Desk, thread: nat, vetted: Result<User, CallbackError>, sid: string, now: int, checkedAt: int, nonce: string)
    requires SessionsExact(d) && (vetted.Ok? ==> vetted.value.sub != "")
    ensures SessionsExact(OpenStep(d, thread, vetted, sid, now, checkedAt, nonce))
  {
  }

  lemma OpenKeepsInv(
    d: Desk, thread: nat, vetted: Result<User, CallbackError>, sid: string, now: int, checkedAt: int, nonce: string)
    requires Inv(d) && (vetted.Ok? ==> vetted.value.sub != "")
    ensures Inv(OpenStep(d, thread, vetted, sid, now, checkedAt, nonce))
  {
    OpenKeepsApart(d, thread, vetted, sid, now, checkedAt, nonce);
    OpenKeepsSessions(d, thread, vetted, sid, now, checkedAt, nonce);
  }

  lemma GiveUpKeepsInv(d: Desk, thread: nat)
    requires Inv(d)
    ensures Inv(d.(held := d.held - {thread}))
  {
  }

  lemma CheckKeepsInv(d: Desk, sid: string, now: int)
    requires Inv(d)
    ensures Inv(CheckStep(d, sid, now))
  {
  }

  lemma LogoutKeepsInv(d: Desk, sid: string)
    requires Inv(d)
    ensures Inv(LogoutStep(d, sid))
  {
  }

  lemma RevokeKeepsInv(d: Desk, sub: string)
    requires Inv(d)
    ensures Inv(RevokeStep(d, sub))
  {
  }

  lemma OpenEventKeepsInv(d: Desk, e: Event)
    requires Inv(d) && e.Open?
    ensures Inv(OpenEvent(d, e))
  {
    OpenKeepsInv(d, e.thread, Vet(TakenBy(d, e.thread), e.now, e.error, e.code, e.ex, e.group),
                 e.sid, e.openedAt, e.now, NonceOf(e.ex));
  }

  lemma StepKeepsInv(d: Desk, e: Event)
    requires Inv(d)
    ensures Inv(Step(d, e))
  {
    match e
    case Login(now, state, nonce, verifier) => LoginKeepsInv(d, now, state, nonce, verifier);
    case Take(thread, state) => TakeKeepsInv(d, thread, state);
    case Open(_, _, _, _, _, _, _, _) => OpenEventKeepsInv(d, e);
    case GiveUp(thread) => GiveUpKeepsInv(d, thread);
    case Check(sid, now) => CheckKeepsInv(d, sid, now);
    case Logout(sid) => LogoutKeepsInv(d, sid);
    case Revoke(sub) => RevokeKeepsInv(d, sub);
  }

  lemma {:induction false} RunKeepsInv(events: seq<Event>)
    ensures Inv(Run(events))
  {
    if events != [] {
      RunKeepsInv(events[..|events| - 1]);
      StepKeepsInv(Run(events[..|events| - 1]), events[|events| - 1]);
    }
  }

  /** Pending sign-ins stay bounded, and one sign-in opens at most one session. */
  lemma SignInsBounded(events: seq<Event>)
    ensures |Run(events).pending| <= 1000
    ensures var born := Run(events).born;
            forall i, j | i in born && j in born && born[i].state == born[j].state :: i == j
  {
    RunKeepsInv(events);
  }

  /**
   A request is admitted exactly when its session was opened at most eight hours before
   the check and was neither logged out, nor revoked, nor found expired before it.
   */
  lemma AdmittedIff(events: seq<Event>, sid: string, now: int)
    ensures var d := Run(events);
            var user := CurrentSection(d.sessions, sid, now).1;
            && (user.Some? <==> && sid in d.born && sid !in d.ended && sid !in d.lapsed
                                && now - d.born[sid].at <= 28_800_000_000_000)
            && (user.Some? ==> user.value == d.born[sid].user && user.value.sub != "")
  {
    RunKeepsInv(events);
  }

  // ---------------------------------------------------------------- sessions and their sign-ins

  /** Pending and held sign-ins are as they were handed out, and sessions answer theirs in time. */
  ghost predicate SignInsExact(d: Desk) {
    && (forall s <- d.pending :: s in d.issued && d.pending[s] == d.issued[s])
    && (forall t <- d.held :: d.held[t].state in d.issued && d.held[t].login == d.issued[d.held[t].state])
    && (forall i <- d.born ::
          && d.born[i].state in d.issued
          && d.born[i].checkedAt <= d.issued[d.born[i].state].expires
          && d.born[i].nonce == d.issued[d.born[i].state].nonce)
  }

  lemma NewPendingExact(d: Desk, p: Pendings, state: string, login: PendingLogin)
    requires SignInsExact(d) && state !in d.issued && p.Keys <= d.pending.Keys + {state}
    requires forall s <- p :: p[s] == if s == state then login else d.pending[s]
    ensures SignInsExact(d.(pending := p, issued := d.issued[state := login]))
  {
    var issued := d.issued[state := login];
    assert forall s <- d.issued :: s in issued && issued[s] == d.issued[s];
    forall s <- p ensures s in issued && p[s] == issued[s] {
      assert s in d.pending || s == state;
    }
  }

  /** A session that a vetted callback opens, over the sign-in its thread holds. */
  predicate Answers(d: Desk, thread: nat, vetted: Result<User, CallbackError>, checkedAt: int, nonce: string) {
    vetted.Ok? ==>
      && vetted.value.sub != ""
      && (thread in d.held ==> checkedAt <= d.held[thread].login.expires && nonce == d.held[thread].login.nonce)
  }

  lemma OpenKeepsSignIns(
    d: Desk, thread: nat, vetted: Result<User, CallbackError>, sid: string, now: int, checkedAt: int, nonce: string)
    requires SignInsExact(d) && Answers(d, thread, vetted, checkedAt, nonce)
    ensures SignInsExact(OpenStep(d, thread, vetted, sid, now, checkedAt, nonce))
  {
  }

  lemma VettedAnswers(d: Desk, thread: nat, now: int, error: string, code: string, ex: Exchange, group: string)
    ensures Answers(d, thread, Vet(TakenBy(d, thread), now, error, code, ex, group), now, NonceOf(ex))
  {
  }

  lemma LoginKeepsSignIns(d: Desk, now: int, state: string, nonce: string, verifier: string)
    requires SignInsExact(d)
    ensures SignInsExact(LoginStep(d, now, state, nonce, verifier))
  {
    if state !in d.issued {
      NewPendingExact(d, LoginSection(d.pending, now, state, nonce, verifier).0, state,
                      PendingLogin(verifier, nonce, now + LOGIN_TTL));
    }
  }

  lemma TakeKeepsSignIns(d: Desk, thread: nat, state: string)
    requires SignInsExact(d)
    ensures SignInsExact(TakeStep(d, thread, state))
  {
  }

  lemma OpenEventKeepsSignIns(d: Desk, e: Event)
    requires SignInsExact(d) && e.Open?
    ensures SignInsExact(OpenEvent(d, e))
  {
    VettedAnswers(d, e.thread, e.now, e.error, e.code, e.ex, e.group);
    OpenKeepsSignIns(d, e.thread, Vet(TakenBy(d, e.thread), e.now, e.error, e.code, e.ex, e.group),
                     e.sid, e.openedAt, e.now, NonceOf(e.ex));
  }

  lemma QuietKeepsSignIns(d: Desk, d': Desk)
    requires SignInsExact(d) && d'.pending == d.pending && d'.issued == d.issued && d'.born == d.born
    requires forall t <- d'.held :: t in d.held && d'.held[t] == d.held[t]
    ensures SignInsExact(d')
  {
  }

  lemma StepKeepsSignIns(d: Desk, e: Event)
    requires SignInsExact(d)
    ensures SignInsExact(Step(d, e))
  {
    match e
    case Login(now, state, nonce, verifier) => LoginKeepsSignIns(d, now, state, nonce, verifier);
    case Take(thread, state) => TakeKeepsSignIns(d, thread, state);
    case Open(_, _, _, _, _, _, _, _) => OpenEventKeepsSignIns(d, e);
    case _ => QuietKeepsSignIns(d, Step(d, e));
  }

  lemma {:induction false} RunKeepsSignIns(events: seq<Event>)
    ensures SignInsExact(Run(events))
  {
    if events != [] {
      RunKeepsSignIns(events[..|events| - 1]);
      StepKeepsSignIns(Run(events[..|events| - 1]), events[|events| - 1]);
    }
  }

  /**
   Every session answers a sign-in that was handed out: its token carries the nonce of that
   sign-in, and it was checked before the sign-in expired, which is ten minutes after it.
   */
  lemma SessionsAnswerSignIns(events: seq<Event>, sid: string)
    requires sid in Run(events).born
    ensures var d := Run(events);
            var birth := d.born[sid];
            && birth.state in d.issued
            && birth.nonce == d.issued[birth.state].nonce
            && birth.checkedAt <= d.issued[birth.state].expires
            && exists e <- events ::
                 e.Login? && e.state == birth.state && e.nonce == birth.nonce
                     && birth.checkedAt <= e.now + 600_000_000_000
  {
    RunKeepsSignIns(events);
    IssuedByLogin(events, Run(events).born[sid].state);
  }

  lemma {:induction false} IssuedByLogin(events: seq<Event>, state: string)
    requires state in Run(events).issued
    ensures exists e <- events ::
              e.Login? && e.state == state
                  && Run(events).issued[state] == PendingLogin(e.verifier, e.nonce, e.now + LOGIN_TTL)
  {
    if events != [] {
      var shorter, last := events[..|events| - 1], events[|events| - 1];
      assert last in events;
      StepIssues(Run(shorter), last, state);
      if state in Run(shorter).issued {
        IssuedByLogin(shorter, state);
      }
    }
  }

  lemma StepIssues(d: Desk, e: Event, state: string)
    requires state in Step(d, e).issued
    ensures Step(d, e).issued[state] ==
            if state in d.issued then d.issued[state]
            else if e.Login? then PendingLogin(e.verifier, e.nonce, e.now + LOGIN_TTL)
            else Step(d, e).issued[state]
    ensures state !in d.issued ==> e.Login? && e.state == state
  {
  }

  ghost predicate Later(d: Desk, d': Desk) {
    && d.ended <= d'.ended && d.lapsed <= d'.lapsed
    && forall sid <- d.born :: sid in d'.born && d'.born[sid] == d.born[sid]
  }

  lemma StepIsLater(d: Desk, e: Event)
    ensures Later(d, Step(d, e))
  {
  }

  lemma LaterTransitive(a: Desk, b: Desk, c: Desk)
    requires Later(a, b) && Later(b, c)
    ensures Later(a, c)
  {
  }

  /** What has ended or lapsed stays so, and a session's birth is never rewritten. */
  lemma {:induction false} EndedStaysEnded(events: seq<Event>, more: seq<Event>)
    ensures Later(Run(events), Run(events + more))
  {
    if more == [] {
      assert events + more == events;
    } else {
      var shorter := more[..|more| - 1];
      var last := more[|more| - 1];
      EndedStaysEnded(events, shorter);
      StepIsLater(Run(events + shorter), last);
      assert events + more == (events + shorter) + [last];
      assert ((events + shorter) + [last])[..|events + shorter|] == events + shorter;
      LaterTransitive(Run(events), Run(events + shorter), Step(Run(events + shorter), last));
    }
  }
}
