/**
 * The model structs shared by the services: integer widths, users, the authenticated caller,
 * the `me`/`self` user selector and the three authorisation checks the services apply.
 */
module Models {
  import opened Wrappers

  const U64_MAX: int := 0xFFFF_FFFF_FFFF_FFFF
  const I64_MAX: int := 0x7FFF_FFFF_FFFF_FFFF
  const I64_MIN: int := -0x8000_0000_0000_0000

  /** Rust's `u64`. */
  type U64 = x: int | 0 <= x <= U64_MAX
  /** Rust's `i64`. */
  type I64 = x: int | I64_MIN <= x <= I64_MAX

  /** A UUID, as its 128-bit value. */
  type UserId = nat
  type SessionId = nat

  /** A `chrono::DateTime<Utc>`: whole seconds since the epoch plus a sub-second part. */
  datatype DateTime = DateTime(seconds: int, nanos: nat) {
    /** `DateTime::timestamp`: the whole seconds. */
    function Timestamp(): int { seconds }
  }

  datatype User = User(
    id: UserId,
    name: string,
    email: Option<string>,
    emailVerified: bool,
    createdAt: DateTime,
    lastLogin: Option<DateTime>,
    lastNameChange: Option<DateTime>,
    enabled: bool,
    admin: bool,
    newsletter: bool)

  datatype UserProfile = UserProfile(displayName: string, bio: string, tags: seq<string>)

  datatype UserDetails = UserDetails(mfaEnabled: bool, passwordLogin: bool)

  /**
   * `UserComposite`. Whether the invoice information is complete enough to buy or to receive
   * coins is computed from the invoice fields elsewhere; the model keeps the two answers.
   */
  datatype UserComposite = UserComposite(
    user: User,
    profile: UserProfile,
    details: UserDetails,
    canBuyCoins: bool,
    canReceiveCoins: bool)

  /** The context decoded from a verified access token. */
  datatype Authentication = Authentication(
    userId: UserId,
    sessionId: SessionId,
    admin: bool,
    emailVerified: bool)

  /**
   * `AuthError`: `Authenticate(InvalidToken)`, `Authorize(Admin)` and
   * `Authorize(EmailVerified)`.
   */
  datatype AuthError = InvalidToken | NotAdmin | EmailNotVerified

  /** `UserIdOrSelf`: an explicit user or the caller. */
  datatype UserIdOrSelf = ForUser(id: UserId) | Slf

  /** `UserIdOrSelf::unwrap_or(auth.user_id)`. */
  function ResolveUser(target: UserIdOrSelf, auth: Authentication): (id: UserId)
    ensures target.ForUser? ==> id == target.id
    ensures target.Slf? ==> id == auth.userId
  {
    match target
    case ForUser(id) => id
    case Slf => auth.userId
  }

  /** `Authentication::ensure_admin`: `None` when the check passes. */
  function EnsureAdmin(auth: Authentication): (err: Option<AuthError>)
    ensures err == None <==> auth.admin
    ensures err != None ==> err == Some(NotAdmin)
  {
    if auth.admin then None else Some(NotAdmin)
  }

  /** `Authentication::ensure_self_or_admin`; a refusal is reported as a missing admin right. */
  function EnsureSelfOrAdmin(auth: Authentication, target: UserId): (err: Option<AuthError>)
    ensures err == None <==> auth.userId == target || auth.admin
    ensures err != None ==> err == Some(NotAdmin)
  {
    if auth.userId == target || auth.admin then None else Some(NotAdmin)
  }

  /** `Authentication::ensure_email_verified`. */
  function EnsureEmailVerified(auth: Authentication): (err: Option<AuthError>)
    ensures err == None <==> auth.emailVerified
    ensures err != None ==> err == Some(EmailNotVerified)
  {
    if auth.emailVerified then None else Some(EmailNotVerified)
  }

  /** Resolving `me` always passes the self-or-admin check: a caller may act on itself. */
  lemma SelfAlwaysAuthorized(auth: Authentication)
    ensures EnsureSelfOrAdmin(auth, ResolveUser(Slf, auth)) == None
  {
  }
}
