/**
 * The REST user models (academy_api/rest/src/models/user.rs): how a path segment becomes an
 * explicit user id or `me`, how a password field may be left empty, and the field-by-field
 * conversions between API and core structs.
 */
module UserApi {
  import opened Wrappers
  import opened Models

  // ---------------------------------------------------------------------------------------------
  // UUID text
  // ---------------------------------------------------------------------------------------------

  predicate IsHex(ch: char)
  {
    ('0' <= ch <= '9') || ('a' <= ch <= 'f') || ('A' <= ch <= 'F')
  }

  function HexDigit(ch: char): (d: nat)
    requires IsHex(ch)
    ensures d < 16
  {
    if '0' <= ch <= '9' then ch as int - '0' as int
    else if 'a' <= ch <= 'f' then ch as int - 'a' as int + 10
    else ch as int - 'A' as int + 10
  }

  predicate AllHex(s: string)
  {
    forall i :: 0 <= i < |s| ==> IsHex(s[i])
  }

  /** The number a string of hexadecimal digits denotes, most significant first. */
  function HexValue(s: string): nat
    requires AllHex(s)
  {
    if s == [] then 0 else HexValue(s[..|s| - 1]) * 16 + HexDigit(s[|s| - 1])
  }

  function Pow16(n: nat): (p: nat)
    ensures p >= 1
  {
    if n == 0 then 1 else 16 * Pow16(n - 1)
  }

  /** One more than the largest value a UUID holds: 16^32 = 2^128. */
  const UUID_BOUND: nat := 0x1_0000_0000_0000_0000_0000_0000_0000_0000

  lemma {:induction false} HexValueBound(s: string)
    requires AllHex(s)
    ensures HexValue(s) < Pow16(|s|)
  {
    if s != [] {
      HexValueBound(s[..|s| - 1]);
    }
  }

  lemma UuidBound()
    ensures Pow16(32) == UUID_BOUND
  {
    assert Pow16(4) == 0x10000;
    assert Pow16(8) == 0x100000000;
    assert Pow16(12) == 0x1000000000000;
    assert Pow16(16) == 0x10000000000000000;
    assert Pow16(20) == 0x100000000000000000000;
    assert Pow16(24) == 0x1000000000000000000000000;
    assert Pow16(28) == 0x10000000000000000000000000000;
    assert Pow16(32) == 0x100000000000000000000000000000000;
  }

  /** The 32 digits of a hyphenated UUID (8-4-4-4-12), with the hyphens in place. */
  predicate IsHyphenated(s: string)
  {
    && |s| == 36
    && s[8] == '-' && s[13] == '-' && s[18] == '-' && s[23] == '-'
    && AllHex(s[..8]) && AllHex(s[9..13]) && AllHex(s[14..18]) && AllHex(s[19..23]) && AllHex(s[24..])
  }

  /** The digits of a hyphenated UUID with the hyphens dropped. */
  function Unhyphenate(s: string): (h: string)
    requires IsHyphenated(s)
    ensures |h| == 32 && AllHex(h)
  {
    var h := s[..8] + s[9..13] + s[14..18] + s[19..23] + s[24..];
    assert forall i :: 0 <= i < 32 ==> h[i] in s[..8] || h[i] in s[9..13] || h[i] in s[14..18] || h[i] in s[19..23] || h[i] in s[24..];
    h
  }

  /** The value of a 32-digit hex string, which always fits a UUID. */
  function UuidValue(h: string): (id: UserId)
    requires |h| == 32 && AllHex(h)
    ensures id < UUID_BOUND
  {
    HexValueBound(h);
    UuidBound();
    HexValue(h)
  }

  /**
   * `Uuid::parse_str`: the simple form (32 hex digits), the hyphenated form, the hyphenated form
   * in braces, or the hyphenated form after `urn:uuid:`. Digits may be upper or lower case.
   */
  function ParseUuid(s: string): (r: Option<UserId>)
    ensures r.Some? ==> r.value < UUID_BOUND
    ensures r.Some? ==> |s| == 32 || |s| == 36 || |s| == 38 || |s| == 45
    ensures |s| == 32 ==> (r.Some? <==> AllHex(s))
    ensures |s| == 36 ==> (r.Some? <==> IsHyphenated(s))
    ensures |s| == 38 ==> (r.Some? <==> s[0] == '{' && s[37] == '}' && IsHyphenated(s[1..37]))
    ensures |s| == 45 ==> (r.Some? <==> s[..9] == "urn:uuid:" && IsHyphenated(s[9..]))
    ensures |s| == 32 && AllHex(s) ==> r == Some(HexValue(s))
    ensures IsHyphenated(s) ==> r == Some(HexValue(Unhyphenate(s)))
  {
    if |s| == 32 && AllHex(s) then Some(UuidValue(s))
    else if IsHyphenated(s) then Some(UuidValue(Unhyphenate(s)))
    else if |s| == 38 && s[0] == '{' && s[37] == '}' && IsHyphenated(s[1..37]) then Some(UuidValue(Unhyphenate(s[1..37])))
    else if |s| == 45 && s[..9] == "urn:uuid:" && IsHyphenated(s[9..]) then Some(UuidValue(Unhyphenate(s[9..])))
    else None
  }

  /** The braced and the URN spellings of a hyphenated UUID denote the same value as it does. */
  lemma UuidSpellingsAgree(s: string)
    requires IsHyphenated(s)
    ensures ParseUuid("{" + s + "}") == ParseUuid(s)
    ensures ParseUuid("urn:uuid:" + s) == ParseUuid(s)
  {
    var braced := "{" + s + "}";
    assert braced[1..37] == s;
    var urn := "urn:uuid:" + s;
    assert urn[..9] == "urn:uuid:" && urn[9..] == s;
  }

  /** The lower-case hex digit for `d`. */
  function HexChar(d: nat): (ch: char)
    requires d < 16
    ensures IsHex(ch) && HexDigit(ch) == d
  {
    if d < 10 then ('0' as int + d) as char else ('a' as int + d - 10) as char
  }

  /** `n` as exactly `width` lower-case hex digits. */
  function Hex(n: nat, width: nat): (s: string)
    ensures |s| == width && AllHex(s)
  {
    if width == 0 then [] else Hex(n / 16, width - 1) + [HexChar(n % 16)]
  }

  lemma {:induction false} HexRoundTrip(n: nat, width: nat)
    requires n < Pow16(width)
    ensures HexValue(Hex(n, width)) == n
  {
    if width > 0 {
      HexRoundTrip(n / 16, width - 1);
      var s := Hex(n, width);
      assert s[..|s| - 1] == Hex(n / 16, width - 1);
    }
  }

  /** The hyphenated lower-case text of a UUID, as `Uuid`'s `Display` writes it. */
  function FormatUuid(id: UserId): (s: string)
    requires id < UUID_BOUND
    ensures IsHyphenated(s)
  {
    var h := Hex(id, 32);
    var s := h[..8] + "-" + h[8..12] + "-" + h[12..16] + "-" + h[16..20] + "-" + h[20..];
    assert s[..8] == h[..8] && s[9..13] == h[8..12] && s[14..18] == h[12..16];
    assert s[19..23] == h[16..20] && s[24..] == h[20..];
    s
  }

  /** Every UUID's text parses back to it. */
  lemma UuidRoundTrip(id: UserId)
    requires id < UUID_BOUND
    ensures ParseUuid(FormatUuid(id)) == Some(id)
  {
    var h := Hex(id, 32);
    var s := FormatUuid(id);
    assert s[..8] == h[..8] && s[9..13] == h[8..12] && s[14..18] == h[12..16];
    assert s[19..23] == h[16..20] && s[24..] == h[20..];
    assert Unhyphenate(s) == h;
    UuidBound();
    HexRoundTrip(id, 32);
  }

  // ---------------------------------------------------------------------------------------------
  // `ApiUserIdOrSelf`
  // ---------------------------------------------------------------------------------------------

  datatype ApiUserIdOrSelf = ApiUserId(id: UserId) | ApiSlf

  /** ASCII lower-casing; on `me` and `self` it decides the same as Unicode lower-casing. */
  function Lower(s: string): (t: string)
    ensures |t| == |s|
    ensures forall i :: 0 <= i < |s| ==> t[i] == (if 'A' <= s[i] <= 'Z' then (s[i] as int + 32) as char else s[i])
  {
    if s == [] then [] else
      var c := s[0];
      [if 'A' <= c <= 'Z' then (c as int + 32) as char else c] + Lower(s[1..])
  }

  /** The selector words, in any letter case. */
  predicate IsSelfWord(s: string)
  {
    Lower(s) == "me" || Lower(s) == "self"
  }

  /**
   * The `ApiUserIdOrSelf` deserializer: a UUID is tried first; otherwise `me` or `self` in any
   * letter case select the caller; anything else is an invalid user id.
   */
  function ParseUserIdOrSelf(s: string): (r: Result<ApiUserIdOrSelf, string>)
    ensures ParseUuid(s).Some? ==> r == Ok(ApiUserId(ParseUuid(s).value))
    ensures r == Ok(ApiSlf) <==> ParseUuid(s).None? && IsSelfWord(s)
    ensures r.Err? <==> ParseUuid(s).None? && !IsSelfWord(s)
  {
    match ParseUuid(s)
    case Some(id) => Ok(ApiUserId(id))
    case None => if IsSelfWord(s) then Ok(ApiSlf) else Err("Invalid user id")
  }

  /** The selector words are never read as a UUID: they are too short. */
  lemma SelfWordsSelectCaller(s: string)
    requires IsSelfWord(s)
    ensures ParseUserIdOrSelf(s) == Ok(ApiSlf)
  {
    assert |s| == |Lower(s)|;
  }

  /** The empty string is neither a UUID nor a selector word. */
  lemma EmptyRejected()
    ensures ParseUserIdOrSelf("").Err?
  {
    assert Lower("") == "";
  }

  /** A UUID's text selects that user, never the caller. */
  lemma UuidSelectsUser(id: UserId)
    requires id < UUID_BOUND
    ensures ParseUserIdOrSelf(FormatUuid(id)) == Ok(ApiUserId(id))
  {
    UuidRoundTrip(id);
  }

  /** `From<ApiUserIdOrSelf> for UserIdOrSelf`. */
  function ToUserIdOrSelf(v: ApiUserIdOrSelf): (u: UserIdOrSelf)
    ensures v.ApiUserId? <==> u.ForUser?
    ensures v.ApiUserId? ==> u.id == v.id
  {
    match v
    case ApiUserId(id) => ForUser(id)
    case ApiSlf => Slf
  }

  // ---------------------------------------------------------------------------------------------
  // `ApiUserPasswordOrEmpty`
  // ---------------------------------------------------------------------------------------------

  datatype PasswordOrEmpty = Empty | Password(password: string)

  /**
   * The `ApiUserPasswordOrEmpty` deserializer: `""` is `Empty`; any other string is a password
   * if it has at most `maxLength` characters (`UserPassword::MAX_LENGTH`), else it is refused.
   */
  function ParsePasswordOrEmpty(s: string, maxLength: nat): (r: Result<PasswordOrEmpty, string>)
    ensures s == "" <==> r == Ok(Empty)
    ensures s != "" && |s| <= maxLength <==> r == Ok(Password(s))
    ensures |s| > maxLength && s != "" <==> r.Err?
  {
    if s == "" then Ok(Empty)
    else if |s| <= maxLength then Ok(Password(s))
    else Err("invalid password")
  }

  // ---------------------------------------------------------------------------------------------
  // Conversions
  // ---------------------------------------------------------------------------------------------

  /** `ApiUser`; timestamps are whole seconds. */
  datatype ApiUser = ApiUser(
    id: UserId,
    name: string,
    displayName: string,
    email: Option<string>,
    emailVerified: bool,
    createdAt: int,
    lastLogin: Option<int>,
    lastNameChange: Option<int>,
    enabled: bool,
    admin: bool,
    password: bool,
    mfaEnabled: bool,
    description: string,
    tags: seq<string>,
    newsletter: bool)

  function SecondsOf(t: Option<DateTime>): (s: Option<int>)
    ensures s.Some? <==> t.Some?
    ensures t.Some? ==> s.value == t.value.Timestamp()
  {
    match t
    case None => None
    case Some(dt) => Some(dt.Timestamp())
  }

  /** `From<UserComposite> for ApiUser`. */
  function ToApiUser(c: UserComposite): (a: ApiUser)
    ensures a.id == c.user.id && a.name == c.user.name && a.email == c.user.email
    ensures a.emailVerified == c.user.emailVerified && a.enabled == c.user.enabled
    ensures a.admin == c.user.admin && a.newsletter == c.user.newsletter
    ensures a.createdAt == c.user.createdAt.seconds
    ensures a.lastLogin == (if c.user.lastLogin.Some? then Some(c.user.lastLogin.value.seconds) else None)
    ensures a.lastNameChange == (if c.user.lastNameChange.Some? then Some(c.user.lastNameChange.value.seconds) else None)
    ensures a.displayName == c.profile.displayName && a.description == c.profile.bio && a.tags == c.profile.tags
    ensures a.mfaEnabled == c.details.mfaEnabled && a.password == c.details.passwordLogin
  {
    ApiUser(
      c.user.id, c.user.name, c.profile.displayName, c.user.email, c.user.emailVerified,
      c.user.createdAt.Timestamp(), SecondsOf(c.user.lastLogin), SecondsOf(c.user.lastNameChange),
      c.user.enabled, c.user.admin, c.details.passwordLogin, c.details.mfaEnabled,
      c.profile.bio, c.profile.tags, c.user.newsletter)
  }

  /** The API view keeps everything a composite's user, profile and details say, to the second. */
  lemma ApiUserDeterminesComposite(c1: UserComposite, c2: UserComposite)
    requires ToApiUser(c1) == ToApiUser(c2)
    requires c1.user.createdAt.nanos == c2.user.createdAt.nanos
    requires c1.user.lastLogin.None? || c2.user.lastLogin.None? || c1.user.lastLogin.value.nanos == c2.user.lastLogin.value.nanos
    requires c1.user.lastNameChange.None? || c2.user.lastNameChange.None? || c1.user.lastNameChange.value.nanos == c2.user.lastNameChange.value.nanos
    ensures c1.user == c2.user && c1.profile == c2.profile && c1.details == c2.details
  {
  }

  /** `ApiUserFilter` and `UserFilter`: the same seven optional criteria. */
  datatype ApiUserFilter = ApiUserFilter(
    name: Option<string>, email: Option<string>, enabled: Option<bool>, admin: Option<bool>,
    mfaEnabled: Option<bool>, emailVerified: Option<bool>, newsletter: Option<bool>)

  datatype UserFilter = UserFilter(
    name: Option<string>, email: Option<string>, enabled: Option<bool>, admin: Option<bool>,
    mfaEnabled: Option<bool>, emailVerified: Option<bool>, newsletter: Option<bool>)

  /** `From<ApiUserFilter> for UserFilter`. */
  function ToUserFilter(f: ApiUserFilter): (u: UserFilter)
    ensures u.name == f.name && u.email == f.email && u.enabled == f.enabled && u.admin == f.admin
    ensures u.mfaEnabled == f.mfaEnabled && u.emailVerified == f.emailVerified && u.newsletter == f.newsletter
  {
    UserFilter(f.name, f.email, f.enabled, f.admin, f.mfaEnabled, f.emailVerified, f.newsletter)
  }
}
