/**
 Pending sign-ins and sessions (authorization code flow with nonce, section 3.1 of OpenID
 Connect Core 1.0), section by section: each function below is one stretch under the lock.
 */
module SignIn {
  import opened Wrappers

  const SESSION_TTL: nat := 8 * 3600 * SECOND
  const LOGIN_TTL: nat := 600 * SECOND
  const MAX_PENDING: nat := 1000

  datatype User = User(sub: string, name: string)

  datatype Session = Session(user: User, expires: int)

  datatype PendingLogin = PendingLogin(verifier: string, nonce: string, expires: int)

  type Pendings = map<string, PendingLogin>

  type Sessions = map<string, Session>

  // ---------------------------------------------------------------- the locked sections

  function Prune(pending: Pendings, now: int): (r: Pendings)
    ensures r.Keys <= pending.Keys
  {
    map k | k in pending && now <= pending[k].expires :: pending[k]
  }

  /** None when too many sign-ins are pending; expired ones are dropped either way. */
  function LoginSection(pending: Pendings, now: int, state: string, nonce: string, verifier: string): (Pendings, bool) {
    var live := Prune(pending, now);
    if |live| >= MAX_PENDING then (live, false)
    else (live[state := PendingLogin(verifier, nonce, now + LOGIN_TTL)], true)
  }

  function TakeSection(pending: Pendings, state: string): (Pendings, Option<PendingLogin>) {
    (pending - {state}, if state in pending then Some(pending[state]) else None)
  }

  function OpenSection(sessions: Sessions, sid: string, u: User, now: int): Sessions {
    sessions[sid := Session(u, now + SESSION_TTL)]
  }

  function CurrentSection(sessions: Sessions, sid: string, now: int): (Sessions, Option<User>) {
    if sid !in sessions || now > sessions[sid].expires then (sessions - {sid}, None)
    else (sessions, Some(sessions[sid].user))
  }

  function RevokeSection(sessions: Sessions, sub: string): (r: Sessions)
    ensures r.Keys <= sessions.Keys
  {
    map id | id in sessions && sessions[id].user.sub != sub :: sessions[id]
  }

  // ---------------------------------------------------------------- what the provider says

  datatype Claims = Claims(preferredUsername: string, email: string, groups: seq<string>)

  /** `claims` is None when the claims of a verified token do not decode. */
  datatype IdToken = Unverified | Verified(subject: string, nonce: string, claims: Option<Claims>)

  datatype Exchange = ExchangeFailed | Tokens(refresh: string, idToken: IdToken)

  datatype CallbackError = StateMismatch | LoginExpired | NotCompleted | SignInFailed | NotInGroup | StoreFailed

  function DisplayName(subject: string, c: Claims): (name: string)
    ensures name in {c.preferredUsername, c.email, subject} && (subject != "" ==> name != "")
    ensures c.preferredUsername != "" ==> name == c.preferredUsername
  {
    if c.preferredUsername != "" then c.preferredUsername
    else if c.email != "" then c.email
    else subject
  }

  /** The checks between taking a pending sign-in and recording its user. */
  function Vet(taken: Option<PendingLogin>, now: int, error: string, code: string, ex: Exchange, group: string):
    (r: Result<User, CallbackError>)
    ensures r.Ok? <==>
      && taken.Some? && now <= taken.value.expires && error == "" && code != ""
      && ex.Tokens? && ex.idToken.Verified? && ex.idToken.nonce == taken.value.nonce && ex.idToken.subject != ""
      && ex.idToken.claims.Some? && group in ex.idToken.claims.value.groups
    ensures r.Ok? ==> r.value == User(ex.idToken.subject, DisplayName(ex.idToken.subject, ex.idToken.claims.value))
  {
    if taken.None? || now > taken.value.expires then Err(LoginExpired)
    else if error != "" || code == "" then Err(NotCompleted)
    else if ex.ExchangeFailed? then Err(SignInFailed)
    else
      match ex.idToken
      case Unverified => Err(SignInFailed)
      case Verified(subject, nonce, claims) =>
        if subject == "" || nonce != taken.value.nonce || claims.None? then Err(SignInFailed)
        else if group !in claims.value.groups then Err(NotInGroup)
        else Ok(User(subject, DisplayName(subject, claims.value)))
  }
}
