/**
 * `SessionFeatureServiceImpl` (academy_core/session/impl/src/lib.rs): password login with
 * CAPTCHA gating, failed-attempt counting and MFA; refresh; admin impersonation; and listing
 * and deleting sessions.
 *
 * The collaborators are modelled as follows. The access-token, password, MFA, CAPTCHA and
 * refresh-token checks are functions fixed when the service is built. The user table is read
 * only. The failed-attempt counters are a cache object, so what they record survives a
 * transaction that is not committed. The session service (whose implementation is not part of
 * this model) is a small store: `create` adds a row under a new id, `delete` removes a row and
 * marks its access tokens invalidated, `delete_by_user` does so for every row of a user.
 */
module SessionFeature {
  import opened Wrappers
  import opened Models

  /** `UserNameOrEmailAddress`. */
  datatype NameOrEmail = Name(name: string) | Email(email: string)

  /** `MfaAuthenticateCommand`: a TOTP code, a recovery code, or neither. */
  datatype MfaInput = MfaInput(totpCode: Option<string>, recoveryCode: Option<string>)

  /** `MfaAuthenticateResult::{Ok, Reset}` and `MfaAuthenticateError::Failed`. */
  datatype MfaOutcome = MfaOk | MfaReset | MfaRefused

  /** `authenticate_by_refresh_token`: the session, or `Invalid`, or `Expired(session)`. */
  datatype RefreshCheck = Valid(sessionId: SessionId) | Invalid | Expired(expiredId: SessionId)

  datatype Session = Session(id: SessionId, userId: UserId, deviceName: Option<string>)

  /** `Login`; the two tokens are not modelled. */
  datatype Login = Login(userComposite: UserComposite, session: Session)

  /** `SessionCreateCommand`. */
  datatype SessionCreateCommand = SessionCreateCommand(
    nameOrEmail: NameOrEmail,
    password: string,
    mfa: MfaInput,
    deviceName: Option<string>)

  /** The arguments of one `SessionService::create` call. */
  datatype CreateCall = CreateCall(userComposite: UserComposite, deviceName: Option<string>, resetFailedAttempts: bool)

  /**
   * The errors of the eight operations; each returns the ones its contract names. `Internal`
   * is the `Other` error the modelled state can raise.
   */
  datatype SessionError =
    | Auth(authError: AuthError)
    | Recaptcha
    | InvalidCredentials
    | MfaFailed
    | UserDisabled
    | NotFound
    | InvalidRefreshToken
    | Internal

  // ---------------------------------------------------------------------------------------------
  // Failed-attempt counters
  // ---------------------------------------------------------------------------------------------

  /** The count for an identifier; an absent entry counts zero. */
  function Count(m: map<NameOrEmail, nat>, i: NameOrEmail): nat
  {
    if i in m then m[i] else 0
  }

  /** `increment`: one more failure for `i`. */
  function Incremented(m: map<NameOrEmail, nat>, i: NameOrEmail): (m': map<NameOrEmail, nat>)
    ensures Count(m', i) == Count(m, i) + 1
    ensures forall j :: j != i ==> Count(m', j) == Count(m, j)
  {
    m[i := Count(m, i) + 1]
  }

  /** `reset`: the count for `i` is gone. */
  function Cleared(m: map<NameOrEmail, nat>, i: NameOrEmail): (m': map<NameOrEmail, nat>)
    ensures Count(m', i) == 0
    ensures forall j :: j != i ==> Count(m', j) == Count(m, j)
  {
    m - {i}
  }

  /** One failure against an account: its name and, when it has one, its email address. */
  function IncrementAccount(m: map<NameOrEmail, nat>, u: User): (m': map<NameOrEmail, nat>)
    ensures Count(m', Name(u.name)) == Count(m, Name(u.name)) + 1
    ensures u.email.Some? ==> Count(m', Email(u.email.value)) == Count(m, Email(u.email.value)) + 1
    ensures forall j :: j != Name(u.name) && (u.email.None? || j != Email(u.email.value)) ==> Count(m', j) == Count(m, j)
  {
    var named := Incremented(m, Name(u.name));
    if u.email.Some? then Incremented(named, Email(u.email.value)) else named
  }

  /** A successful check of an account: the counts for its name and email address are gone. */
  function ResetAccount(m: map<NameOrEmail, nat>, u: User): (m': map<NameOrEmail, nat>)
    ensures Count(m', Name(u.name)) == 0
    ensures u.email.Some? ==> Count(m', Email(u.email.value)) == 0
    ensures forall j :: j != Name(u.name) && (u.email.None? || j != Email(u.email.value)) ==> Count(m', j) == Count(m, j)
  {
    var named := Cleared(m, Name(u.name));
    if u.email.Some? then Cleared(named, Email(u.email.value)) else named
  }

  /** The counters after `k` failures against the same account. */
  function Failures(m: map<NameOrEmail, nat>, u: User, k: nat): map<NameOrEmail, nat>
  {
    if k == 0 then m else IncrementAccount(Failures(m, u, k - 1), u)
  }

  /** Failures against an account add up on its name and on its email address alike. */
  lemma {:induction false} FailuresAddUp(m: map<NameOrEmail, nat>, u: User, k: nat)
    ensures Count(Failures(m, u, k), Name(u.name)) == Count(m, Name(u.name)) + k
    ensures u.email.Some? ==> Count(Failures(m, u, k), Email(u.email.value)) == Count(m, Email(u.email.value)) + k
  {
    if k > 0 {
      FailuresAddUp(m, u, k - 1);
    }
  }

  /**
   * After `threshold` failures against an account, a login with its name, or with its email
   * address, needs a CAPTCHA, whichever identifier the failing attempts used.
   */
  lemma FailuresRequireCaptcha(m: map<NameOrEmail, nat>, u: User, threshold: nat)
    ensures Count(Failures(m, u, threshold), Name(u.name)) >= threshold
    ensures u.email.Some? ==> Count(Failures(m, u, threshold), Email(u.email.value)) >= threshold
  {
    FailuresAddUp(m, u, threshold);
  }

  /** After a successful check, a login with the account's name or address needs no CAPTCHA. */
  lemma ResetLiftsCaptcha(m: map<NameOrEmail, nat>, u: User, threshold: nat)
    requires threshold > 0
    ensures Count(ResetAccount(m, u), Name(u.name)) < threshold
    ensures u.email.Some? ==> Count(ResetAccount(m, u), Email(u.email.value)) < threshold
  {
  }

  /** `SessionFailedAuthCountService`, a cache shared by all requests. */
  class FailedAuthCount {
    var counts: map<NameOrEmail, nat>

    constructor ()
      ensures counts == map[]
    {
      counts := map[];
    }

    /** `get`. */
    function Get(i: NameOrEmail): (n: nat)
      reads this
      ensures i !in counts ==> n == 0
      ensures i in counts ==> n == counts[i]
    {
      Count(counts, i)
    }

    /** `increment`. */
    method Increment(i: NameOrEmail)
      modifies this
      ensures counts == Incremented(old(counts), i)
    {
      counts := Incremented(counts, i);
    }

    /** `reset`. */
    method Reset(i: NameOrEmail)
      modifies this
      ensures counts == Cleared(old(counts), i)
    {
      counts := Cleared(counts, i);
    }
  }

  // ---------------------------------------------------------------------------------------------
  // Session store
  // ---------------------------------------------------------------------------------------------

  /** The rows the session service keeps, and the sessions whose access tokens were revoked. */
  class SessionStore {
    var sessions: map<SessionId, Session>
    var nextSessionId: SessionId
    /** Revocation markers, kept in the cache: they outlive a transaction that is not committed. */
    var invalidated: set<SessionId>
    /** Every `create` call, in order. */
    ghost var createCalls: seq<CreateCall>

    ghost predicate Valid()
      reads this
    {
      forall sid :: sid in sessions ==> sessions[sid].id == sid && sid < nextSessionId
    }

    constructor ()
      ensures Valid() && sessions == map[] && invalidated == {} && createCalls == []
    {
      sessions := map[];
      nextSessionId := 0;
      invalidated := {};
      createCalls := [];
    }

    /** `SessionService::create`: a row under a new id for the composite's user. */
    method Create(uc: UserComposite, deviceName: Option<string>, resetFailedAttempts: bool) returns (login: Login)
      requires Valid()
      modifies this
      ensures Valid()
      ensures old(nextSessionId) !in old(sessions)
      ensures login == Login(uc, Session(old(nextSessionId), uc.user.id, deviceName))
      ensures sessions == old(sessions)[login.session.id := login.session]
      ensures nextSessionId == old(nextSessionId) + 1 && invalidated == old(invalidated)
      ensures createCalls == old(createCalls) + [CreateCall(uc, deviceName, resetFailedAttempts)]
    {
      var session := Session(nextSessionId, uc.user.id, deviceName);
      sessions := sessions[session.id := session];
      nextSessionId := nextSessionId + 1;
      createCalls := createCalls + [CreateCall(uc, deviceName, resetFailedAttempts)];
      login := Login(uc, session);
    }

    /** `SessionService::delete`: removes the row and revokes its tokens; whether it existed. */
    method Delete(sid: SessionId) returns (existed: bool)
      requires Valid()
      modifies this
      ensures Valid()
      ensures existed <==> sid in old(sessions)
      ensures sessions == old(sessions) - {sid}
      ensures invalidated == if existed then old(invalidated) + {sid} else old(invalidated)
      ensures nextSessionId == old(nextSessionId) && createCalls == old(createCalls)
    {
      existed := sid in sessions;
      if existed {
        sessions := sessions - {sid};
        invalidated := invalidated + {sid};
      }
    }

    /** `SessionService::delete_by_user`: every row of `userId` is removed and revoked. */
    method DeleteByUser(userId: UserId)
      requires Valid()
      modifies this
      ensures Valid()
      ensures sessions == map sid | sid in old(sessions) && old(sessions)[sid].userId != userId :: old(sessions)[sid]
      ensures invalidated == old(invalidated) + set sid | sid in old(sessions) && old(sessions)[sid].userId == userId
      ensures nextSessionId == old(nextSessionId) && createCalls == old(createCalls)
    {
      invalidated := invalidated + set sid | sid in sessions && sessions[sid].userId == userId;
      sessions := map sid | sid in sessions && sessions[sid].userId != userId :: sessions[sid];
    }
  }

  // ---------------------------------------------------------------------------------------------
  // The feature service
  // ---------------------------------------------------------------------------------------------

  /** Whether `u` is the account `i` names. */
  predicate Matches(u: UserComposite, i: NameOrEmail)
  {
    match i
    case Name(n) => u.user.name == n
    case Email(e) => u.user.email == Some(e)
  }

  class SessionFeatureSvc {
    /** `login_fails_before_captcha`. */
    const loginFailsBeforeCaptcha: nat
    const authenticate: string -> Option<Authentication>
    /** `AuthService::authenticate_by_password`: whether the password is the user's. */
    const checkPassword: (UserId, string) -> bool
    /** `MfaAuthenticateService::authenticate`. */
    const checkMfa: (UserId, MfaInput) -> MfaOutcome
    /** `CaptchaService::check` on the response, if one was sent. */
    const checkCaptcha: Option<string> -> bool
    const checkRefreshToken: string -> RefreshCheck
    const users: map<UserId, UserComposite>
    const failedAuthCount: FailedAuthCount
    const store: SessionStore

    /** The CAPTCHA responses that were checked, in order. */
    ghost var captchaChecks: seq<Option<string>>
    /** The users whose MFA was checked, in order. */
    ghost var mfaChecks: seq<UserId>

    /**
     * Users are stored under their ids, names and email addresses are unique, and every
     * session belongs to a user.
     */
    ghost predicate Valid()
      reads this, store
    {
      && store.Valid()
      && (forall uid :: uid in users ==> users[uid].user.id == uid)
      && (forall a, b :: a in users && b in users && users[a].user.name == users[b].user.name ==> a == b)
      && (forall a, b :: a in users && b in users && users[a].user.email.Some? && users[a].user.email == users[b].user.email ==> a == b)
      && (forall sid :: sid in store.sessions ==> store.sessions[sid].userId in users)
    }

    constructor (loginFailsBeforeCaptcha: nat, authenticate: string -> Option<Authentication>,
                 checkPassword: (UserId, string) -> bool, checkMfa: (UserId, MfaInput) -> MfaOutcome,
                 checkCaptcha: Option<string> -> bool, checkRefreshToken: string -> RefreshCheck,
                 users: map<UserId, UserComposite>, failedAuthCount: FailedAuthCount, store: SessionStore)
      requires store.Valid()
      requires forall uid :: uid in users ==> users[uid].user.id == uid
      requires forall a, b :: a in users && b in users && users[a].user.name == users[b].user.name ==> a == b
      requires forall a, b :: a in users && b in users && users[a].user.email.Some? && users[a].user.email == users[b].user.email ==> a == b
      requires forall sid :: sid in store.sessions ==> store.sessions[sid].userId in users
      ensures Valid()
      ensures this.loginFailsBeforeCaptcha == loginFailsBeforeCaptcha && this.authenticate == authenticate
      ensures this.checkPassword == checkPassword && this.checkMfa == checkMfa
      ensures this.checkCaptcha == checkCaptcha && this.checkRefreshToken == checkRefreshToken
      ensures this.users == users && this.failedAuthCount == failedAuthCount && this.store == store
      ensures captchaChecks == [] && mfaChecks == []
    {
      this.loginFailsBeforeCaptcha := loginFailsBeforeCaptcha;
      this.authenticate := authenticate;
      this.checkPassword := checkPassword;
      this.checkMfa := checkMfa;
      this.checkCaptcha := checkCaptcha;
      this.checkRefreshToken := checkRefreshToken;
      this.users := users;
      this.failedAuthCount := failedAuthCount;
      this.store := store;
      captchaChecks := [];
      mfaChecks := [];
    }

    /** `get_composite_by_name_or_email`: the one user `i` names, if any. */
    function FindUser(i: NameOrEmail): (r: Option<UserId>)
      requires Valid()
      reads this, store
      ensures r.None? <==> forall uid :: uid in users ==> !Matches(users[uid], i)
      ensures r.Some? ==> r.value in users && Matches(users[r.value], i)
      ensures r.Some? ==> forall uid :: uid in users && Matches(users[uid], i) ==> uid == r.value
    {
      if exists uid :: uid in users && Matches(users[uid], i) then
        var uid :| uid in users && Matches(users[uid], i);
        Some(uid)
      else
        None
    }

    /**
     * `get_current_session`: the caller's session; a valid token whose session is gone is an
     * internal error.
     */
    function GetCurrentSession(token: string): (r: Result<Session, SessionError>)
      reads this, store
      ensures authenticate(token).None? ==> r == Err(Auth(InvalidToken))
      ensures authenticate(token).Some? ==>
        var sid := authenticate(token).value.sessionId;
        if sid in store.sessions then r == Ok(store.sessions[sid]) else r == Err(Internal)
    {
      match authenticate(token)
      case None => Err(Auth(InvalidToken))
      case Some(auth) =>
        if auth.sessionId in store.sessions then Ok(store.sessions[auth.sessionId]) else Err(Internal)
    }

    /**
     * `list_by_user`: `me` is the caller, who must be that user or an administrator; the
     * result holds every session of the user once and nothing else.
     */
    method ListByUser(token: string, target: UserIdOrSelf) returns (r: Result<seq<Session>, SessionError>)
      requires Valid()
      ensures authenticate(token).None? ==> r == Err(Auth(InvalidToken))
      ensures authenticate(token).Some? ==>
        var auth := authenticate(token).value;
        var uid := ResolveUser(target, auth);
        if auth.userId != uid && !auth.admin then r == Err(Auth(NotAdmin))
        else
          && r.Ok?
          && (forall s :: s in r.value <==> s in store.sessions.Values && s.userId == uid)
          && (forall i, j :: 0 <= i < j < |r.value| ==> r.value[i] != r.value[j])
    {
      var auth := authenticate(token);
      if auth.None? {
        return Err(Auth(InvalidToken));
      }
      var uid := ResolveUser(target, auth.value);
      var denied := EnsureSelfOrAdmin(auth.value, uid);
      if denied.Some? {
        return Err(Auth(denied.value));
      }
      var found: seq<Session> := [];
      var rest := store.sessions.Keys;
      while rest != {}
        invariant rest <= store.sessions.Keys
        invariant forall s :: s in found <==> s in store.sessions.Values && s.userId == uid && s.id !in rest
        invariant forall i, j :: 0 <= i < j < |found| ==> found[i] != found[j]
        decreases rest
      {
        var sid :| sid in rest;
        if store.sessions[sid].userId == uid {
          found := found + [store.sessions[sid]];
        }
        rest := rest - {sid};
      }
      r := Ok(found);
    }

    /**
     * `create_session`, the password login. In order: a CAPTCHA is demanded once the submitted
     * identifier has `login_fails_before_captcha` failures; an unknown account counts a failure
     * against the submitted identifier only; a wrong password, or refused MFA (checked only when
     * the user has it enabled), counts a failure against the account's name and email address;
     * an unknown account and a wrong password give the same error. Then the account's counts are
     * reset, and only then is a disabled account refused. A login creates a session with the
     * device name, asking for the failed attempts to be reset; a recovery-code login hands over
     * the composite with MFA off.
     */
    method CreateSession(cmd: SessionCreateCommand, recaptcha: Option<string>) returns (r: Result<Login, SessionError>)
      requires Valid()
      modifies this, failedAuthCount, store
      ensures Valid()
      ensures store.invalidated == old(store.invalidated)
      ensures captchaChecks ==
        if old(failedAuthCount.Get(cmd.nameOrEmail)) >= loginFailsBeforeCaptcha then old(captchaChecks) + [recaptcha]
        else old(captchaChecks)
      ensures r.Err? ==> store.sessions == old(store.sessions) && store.createCalls == old(store.createCalls)
      ensures old(failedAuthCount.Get(cmd.nameOrEmail)) >= loginFailsBeforeCaptcha && !checkCaptcha(recaptcha) ==>
        r == Err(Recaptcha) && failedAuthCount.counts == old(failedAuthCount.counts) && mfaChecks == old(mfaChecks)
      ensures old(failedAuthCount.Get(cmd.nameOrEmail)) < loginFailsBeforeCaptcha || checkCaptcha(recaptcha) ==>
        match FindUser(cmd.nameOrEmail)
        case None =>
          && r == Err(InvalidCredentials)
          && failedAuthCount.counts == Incremented(old(failedAuthCount.counts), cmd.nameOrEmail)
          && mfaChecks == old(mfaChecks)
        case Some(uid) =>
          LoginOutcome(uid, cmd, r, old(failedAuthCount.counts), failedAuthCount.counts, old(mfaChecks), mfaChecks,
                       old(store.sessions), old(store.nextSessionId), old(store.createCalls))
    {
      var attempts := failedAuthCount.Get(cmd.nameOrEmail);
      if attempts >= loginFailsBeforeCaptcha {
        captchaChecks := captchaChecks + [recaptcha];
        if !checkCaptcha(recaptcha) {
          return Err(Recaptcha);
        }
      }
      var found := FindUser(cmd.nameOrEmail);
      if found.None? {
        failedAuthCount.Increment(cmd.nameOrEmail);
        return Err(InvalidCredentials);
      }
      r := LoginAs(found.value, cmd);
    }

    /**
     * What a login attempt for the known account `uid` does, once past the CAPTCHA gate: the
     * result, and the counters, MFA checks and session rows before and after.
     */
    ghost predicate LoginOutcome(uid: UserId, cmd: SessionCreateCommand, r: Result<Login, SessionError>,
                                 counts0: map<NameOrEmail, nat>, counts1: map<NameOrEmail, nat>,
                                 mfa0: seq<UserId>, mfa1: seq<UserId>,
                                 sessions0: map<SessionId, Session>, nextId0: SessionId, calls0: seq<CreateCall>)
      requires uid in users
      reads this, store
    {
      var u := users[uid];
      if !checkPassword(uid, cmd.password) then
        && r == Err(InvalidCredentials)
        && counts1 == IncrementAccount(counts0, u.user)
        && mfa1 == mfa0
      else
        && mfa1 == (if u.details.mfaEnabled then mfa0 + [uid] else mfa0)
        && var mfa := if u.details.mfaEnabled then checkMfa(uid, cmd.mfa) else MfaOk;
        if mfa == MfaRefused then
          && r == Err(MfaFailed)
          && counts1 == IncrementAccount(counts0, u.user)
        else
          && counts1 == ResetAccount(counts0, u.user)
          && if !u.user.enabled then r == Err(UserDisabled)
             else
               var uc := if mfa == MfaReset then u.(details := u.details.(mfaEnabled := false)) else u;
               var s := Session(nextId0, uid, cmd.deviceName);
               && r == Ok(Login(uc, s))
               && store.sessions == sessions0[s.id := s]
               && store.createCalls == calls0 + [CreateCall(uc, cmd.deviceName, true)]
    }

    /** The password, MFA and enabled checks of `create_session` for a known account. */
    method LoginAs(uid: UserId, cmd: SessionCreateCommand) returns (r: Result<Login, SessionError>)
      requires Valid() && uid in users
      modifies this, failedAuthCount, store
      ensures Valid()
      ensures store.invalidated == old(store.invalidated) && captchaChecks == old(captchaChecks)
      ensures r.Err? ==> store.sessions == old(store.sessions) && store.createCalls == old(store.createCalls)
      ensures LoginOutcome(uid, cmd, r, old(failedAuthCount.counts), failedAuthCount.counts, old(mfaChecks), mfaChecks,
                           old(store.sessions), old(store.nextSessionId), old(store.createCalls))
    {
      var uc := users[uid];
      if !checkPassword(uid, cmd.password) {
        IncrementFailedAttempts(uc.user);
        return Err(InvalidCredentials);
      }
      if uc.details.mfaEnabled {
        mfaChecks := mfaChecks + [uid];
        match checkMfa(uid, cmd.mfa)
        case MfaOk =>
        case MfaReset =>
          uc := uc.(details := uc.details.(mfaEnabled := false));
        case MfaRefused =>
          IncrementFailedAttempts(uc.user);
          return Err(MfaFailed);
      }
      failedAuthCount.Reset(Name(uc.user.name));
      if uc.user.email.Some? {
        failedAuthCount.Reset(Email(uc.user.email.value));
      }
      if !uc.user.enabled {
        return Err(UserDisabled);
      }
      var login := store.Create(uc, cmd.deviceName, true);
      r := Ok(login);
    }

    /** `increment_failed_login_attempts`: the account's name, then its email address. */
    method IncrementFailedAttempts(u: User)
      modifies failedAuthCount
      ensures failedAuthCount.counts == IncrementAccount(old(failedAuthCount.counts), u)
    {
      failedAuthCount.Increment(Name(u.name));
      if u.email.Some? {
        failedAuthCount.Increment(Email(u.email.value));
      }
    }

    /**
     * `impersonate`: only an administrator; an unknown user is `NotFound`; the session has no
     * device name and the failed attempts are not reset.
     */
    method Impersonate(token: string, userId: UserId) returns (r: Result<Login, SessionError>)
      requires Valid()
      modifies store
      ensures Valid()
      ensures store.invalidated == old(store.invalidated)
      ensures authenticate(token).None? ==> r == Err(Auth(InvalidToken))
      ensures authenticate(token).Some? && !authenticate(token).value.admin ==> r == Err(Auth(NotAdmin))
      ensures authenticate(token).Some? && authenticate(token).value.admin && userId !in users ==> r == Err(NotFound)
      ensures r.Err? ==> store.sessions == old(store.sessions) && store.createCalls == old(store.createCalls)
      ensures authenticate(token).Some? && authenticate(token).value.admin && userId in users ==>
        var s := Session(old(store.nextSessionId), userId, None);
        && r == Ok(Login(users[userId], s))
        && store.sessions == old(store.sessions)[s.id := s]
        && store.createCalls == old(store.createCalls) + [CreateCall(users[userId], None, false)]
    {
      var auth := authenticate(token);
      if auth.None? {
        return Err(Auth(InvalidToken));
      }
      var denied := EnsureAdmin(auth.value);
      if denied.Some? {
        return Err(Auth(denied.value));
      }
      if userId !in users {
        return Err(NotFound);
      }
      var login := store.Create(users[userId], None, false);
      r := Ok(login);
    }

    /**
     * `refresh_session`: an invalid token, an expired one and a vanished session are all
     * `InvalidRefreshToken`. For an expired token the session is deleted inside the transaction,
     * which is then not committed: the row stays and only the revocation of its access tokens,
     * kept in the cache, remains.
     */
    method RefreshSession(refreshToken: string) returns (r: Result<Login, SessionError>)
      requires Valid()
      modifies store
      ensures Valid()
      ensures store.sessions == old(store.sessions) && store.nextSessionId == old(store.nextSessionId)
      ensures store.createCalls == old(store.createCalls)
      ensures r.Err? ==> r == Err(InvalidRefreshToken)
      ensures match checkRefreshToken(refreshToken)
        case Invalid => r.Err? && store.invalidated == old(store.invalidated)
        case Expired(sid) =>
          && r.Err?
          && store.invalidated == if sid in old(store.sessions) then old(store.invalidated) + {sid} else old(store.invalidated)
        case Valid(sid) =>
          && store.invalidated == old(store.invalidated)
          && (sid !in store.sessions ==> r.Err?)
          && (sid in store.sessions ==> r == Ok(Login(users[store.sessions[sid].userId], store.sessions[sid])))
    {
      match checkRefreshToken(refreshToken)
      case Invalid =>
        r := Err(InvalidRefreshToken);
      case Expired(sid) =>
        var saved := store.sessions;
        var _ := store.Delete(sid);
        // The transaction is dropped without a commit.
        store.sessions := saved;
        r := Err(InvalidRefreshToken);
      case Valid(sid) =>
        if sid !in store.sessions {
          r := Err(InvalidRefreshToken);
        } else {
          var session := store.sessions[sid];
          r := Ok(Login(users[session.userId], session));
        }
    }

    /**
     * `delete_session`: `me` is the caller, who must be that user or an administrator; a session
     * that does not exist or belongs to someone else is `NotFound` and nothing is deleted.
     */
    method DeleteSession(token: string, target: UserIdOrSelf, sid: SessionId) returns (r: Result<(), SessionError>)
      requires Valid()
      modifies store
      ensures Valid()
      ensures store.nextSessionId == old(store.nextSessionId) && store.createCalls == old(store.createCalls)
      ensures authenticate(token).None? ==> r == Err(Auth(InvalidToken))
      ensures authenticate(token).Some? ==>
        var auth := authenticate(token).value;
        var uid := ResolveUser(target, auth);
        if auth.userId != uid && !auth.admin then r == Err(Auth(NotAdmin))
        else if sid !in old(store.sessions) || old(store.sessions)[sid].userId != uid then r == Err(NotFound)
        else
          && r.Ok?
          && store.sessions == old(store.sessions) - {sid}
          && store.invalidated == old(store.invalidated) + {sid}
      ensures r.Err? ==> store.sessions == old(store.sessions) && store.invalidated == old(store.invalidated)
    {
      var auth := authenticate(token);
      if auth.None? {
        return Err(Auth(InvalidToken));
      }
      var uid := ResolveUser(target, auth.value);
      var denied := EnsureSelfOrAdmin(auth.value, uid);
      if denied.Some? {
        return Err(Auth(denied.value));
      }
      if sid !in store.sessions || store.sessions[sid].userId != uid {
        return Err(NotFound);
      }
      var _ := store.Delete(sid);
      r := Ok(());
    }

    /** `delete_current_session`: the caller's own session, which may already be gone. */
    method DeleteCurrentSession(token: string) returns (r: Result<(), SessionError>)
      requires Valid()
      modifies store
      ensures Valid()
      ensures store.nextSessionId == old(store.nextSessionId) && store.createCalls == old(store.createCalls)
      ensures authenticate(token).None? ==>
        r == Err(Auth(InvalidToken)) && store.sessions == old(store.sessions) && store.invalidated == old(store.invalidated)
      ensures authenticate(token).Some? ==>
        var sid := authenticate(token).value.sessionId;
        && r == Ok(())
        && store.sessions == old(store.sessions) - {sid}
        && store.invalidated == if sid in old(store.sessions) then old(store.invalidated) + {sid} else old(store.invalidated)
    {
      var auth := authenticate(token);
      if auth.None? {
        return Err(Auth(InvalidToken));
      }
      var _ := store.Delete(auth.value.sessionId);
      r := Ok(());
    }

    /**
     * `delete_by_user`: `me` is the caller, who must be that user or an administrator; every
     * session of the user is deleted and no other.
     */
    method DeleteByUser(token: string, target: UserIdOrSelf) returns (r: Result<(), SessionError>)
      requires Valid()
      modifies store
      ensures Valid()
      ensures store.nextSessionId == old(store.nextSessionId) && store.createCalls == old(store.createCalls)
      ensures authenticate(token).None? ==> r == Err(Auth(InvalidToken))
      ensures authenticate(token).Some? ==>
        var auth := authenticate(token).value;
        var uid := ResolveUser(target, auth);
        if auth.userId != uid && !auth.admin then r == Err(Auth(NotAdmin))
        else
          && r.Ok?
          && (forall sid :: sid in store.sessions <==> sid in old(store.sessions) && old(store.sessions)[sid].userId != uid)
          && (forall sid :: sid in store.sessions ==> store.sessions[sid] == old(store.sessions)[sid])
          && store.invalidated == old(store.invalidated) + set sid | sid in old(store.sessions) && old(store.sessions)[sid].userId == uid
      ensures r.Err? ==> store.sessions == old(store.sessions) && store.invalidated == old(store.invalidated)
    {
      var auth := authenticate(token);
      if auth.None? {
        return Err(Auth(InvalidToken));
      }
      var uid := ResolveUser(target, auth.value);
      var denied := EnsureSelfOrAdmin(auth.value, uid);
      if denied.Some? {
        return Err(Auth(denied.value));
      }
      store.DeleteByUser(uid);
      r := Ok(());
    }
  }
}
