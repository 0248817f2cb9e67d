/**
 * The refresh-token protocol of `AuthController`: signup and login store the
 * newly signed refresh token in the cache under `refresh_token:<user id>` for
 * 30 days, logout deletes it, and a refresh is granted only for the very token
 * the cache still holds.
 *
 * JWT signing is abstract: the signed refresh token is a parameter, and
 * `jwt.verify` / `jwt.decode` are the functions of `Jwt` (verification that
 * fails, which throws in the source, is `None`).
 */
module Auth {
  import opened Wrappers
  import opened Domain
  import opened Accounts
  import opened Cache

  /** The payload signed into both tokens. */
  datatype Claims = Claims(userId: string, organizationId: string)

  datatype Jwt = Jwt(verify: string -> Option<Claims>, decode: string -> Option<Claims>)

  /** The cache key of a user's refresh token. */
  function TokenKey(userId: string): string {
    "refresh_token:" + userId
  }

  /** 30 days, in seconds (the cache's 'EX' unit). */
  const RefreshTokenSeconds: int := 30 * 24 * 60 * 60

  /** The cache after a refresh token has been stored for a user at time now. */
  function Stored(s: Store, userId: string, refreshToken: string, now: int): Store {
    Written(s, TokenKey(userId), refreshToken, Some(RefreshTokenSeconds), now)
  }

  lemma TokenKeyInjective(a: string, b: string)
    requires TokenKey(a) == TokenKey(b)
    ensures a == b
  {
    assert a == TokenKey(a)[14..];
    assert b == TokenKey(b)[14..];
  }

  /** `refreshToken`'s decision for the cookie it is given, against the cache at time now. */
  function RefreshDecision(s: Store, cookie: Option<string>, jwt: Jwt, now: int): Result<Claims, HttpError> {
    if cookie.None? || cookie.value == "" then Err(HttpError(401, "Refresh token required"))
    else if jwt.verify(cookie.value).None? then Err(HttpError(401, "Invalid refresh token"))
    else if Read(s, TokenKey(jwt.verify(cookie.value).value.userId), now) != Some(cookie.value) then
      Err(HttpError(401, "Invalid refresh token"))
    else Ok(jwt.verify(cookie.value).value)
  }

  /** The cache key `logout` deletes: the decoded token's user, when it names one. */
  function LogoutKey(cookie: Option<string>, jwt: Jwt): Option<string> {
    if cookie.None? || cookie.value == "" then None
    else if jwt.decode(cookie.value).None? || jwt.decode(cookie.value).value.userId == "" then None
    else Some(TokenKey(jwt.decode(cookie.value).value.userId))
  }

  /** The cache after `logout`. */
  function LoggedOut(s: Store, cookie: Option<string>, jwt: Jwt): Store {
    if LogoutKey(cookie, jwt).Some? then Deleted(s, LogoutKey(cookie, jwt).value) else s
  }

  /**
   * A refresh is granted exactly when a non-empty cookie verifies and equals
   * the live token cached for the user it names; every refusal is a 401.
   */
  lemma RefreshOnlyForStoredToken(s: Store, cookie: Option<string>, jwt: Jwt, now: int)
    ensures RefreshDecision(s, cookie, jwt, now).Ok? <==>
      cookie.Some? && cookie.value != "" && jwt.verify(cookie.value).Some? &&
      Read(s, TokenKey(jwt.verify(cookie.value).value.userId), now) == Some(cookie.value)
    ensures RefreshDecision(s, cookie, jwt, now).Ok? ==> RefreshDecision(s, cookie, jwt, now).value == jwt.verify(cookie.value).value
    ensures RefreshDecision(s, cookie, jwt, now).Err? ==> RefreshDecision(s, cookie, jwt, now).error.status == 401
    ensures cookie.None? || cookie.value == "" ==> RefreshDecision(s, cookie, jwt, now) == Err(HttpError(401, "Refresh token required"))
  {
  }

  /**
   * After signup or login stores a token, that token refreshes for 30 days,
   * while any other token naming the same user (an older one) is refused.
   */
  lemma StoredTokenRefreshes(s: Store, claims: Claims, token: string, other: string, jwt: Jwt, now: int, later: int)
    requires token != "" && jwt.verify(token) == Some(claims)
    requires 0 <= now <= later <= now + RefreshTokenSeconds * 1000
    requires other != token && jwt.verify(other).Some? && jwt.verify(other).value.userId == claims.userId
    ensures RefreshDecision(Stored(s, claims.userId, token, now), Some(token), jwt, later) == Ok(claims)
    ensures RefreshDecision(Stored(s, claims.userId, token, now), Some(other), jwt, later).Err?
  {
    ReadAfterWrite(s, TokenKey(claims.userId), token, Some(RefreshTokenSeconds), now, later);
  }

  /** The stored token stops refreshing once its 30 days are over. */
  lemma StoredTokenExpires(s: Store, claims: Claims, token: string, jwt: Jwt, now: int, later: int)
    requires token != "" && jwt.verify(token) == Some(claims)
    requires 0 <= now && now + RefreshTokenSeconds * 1000 < later
    ensures RefreshDecision(Stored(s, claims.userId, token, now), Some(token), jwt, later).Err?
  {
    ReadAfterWrite(s, TokenKey(claims.userId), token, Some(RefreshTokenSeconds), now, later);
  }

  /**
   * Logging out with a token revokes it: when `jwt.decode` and `jwt.verify`
   * agree on the user, the same token is refused afterwards, whenever it is
   * presented; other users' refreshes are unaffected.
   */
  lemma LogoutRevokes(s: Store, token: string, jwt: Jwt, other: Option<string>, t: int)
    requires token != "" && jwt.verify(token).Some? && jwt.decode(token) == jwt.verify(token)
    requires jwt.verify(token).value.userId != ""
    requires other.Some? && other.value != "" && jwt.verify(other.value).Some? ==>
      jwt.verify(other.value).value.userId != jwt.verify(token).value.userId
    ensures RefreshDecision(LoggedOut(s, Some(token), jwt), Some(token), jwt, t).Err?
    ensures RefreshDecision(LoggedOut(s, Some(token), jwt), other, jwt, t) == RefreshDecision(s, other, jwt, t)
  {
    var key := TokenKey(jwt.verify(token).value.userId);
    ReadAfterDelete(s, key, t);
    if other.Some? && other.value != "" && jwt.verify(other.value).Some? {
      var otherKey := TokenKey(jwt.verify(other.value).value.userId);
      if otherKey == key {
        TokenKeyInjective(jwt.verify(other.value).value.userId, jwt.verify(token).value.userId);
      }
      OtherKeysUnaffected(s, key, otherKey, "", None, t, t);
    }
  }

  /** A logout without a cookie, or with one naming no user, leaves the cache as it was. */
  lemma LogoutWithoutUserChangesNothing(s: Store, cookie: Option<string>, jwt: Jwt)
    requires cookie.None? || cookie.value == "" || jwt.decode(cookie.value).None? || jwt.decode(cookie.value).value.userId == ""
    ensures LoggedOut(s, cookie, jwt) == s
  {
  }

  /** The controller over the accounts and the shared cache. */
  class AuthController {
    var accounts: Accounts
    const cache: InMemoryCache

    constructor(initial: Accounts, c: InMemoryCache)
      ensures accounts == initial && cache == c
    {
      accounts := initial;
      cache := c;
    }

    /** `POST /auth/signup`; `refreshToken` is the token `jwt.sign` issues for the new user. */
    method Signup(bcrypt: Bcrypt, req: SignupRequest, userId: string, organizationId: string, refreshToken: string, now: int)
      returns (r: Result<Registration, HttpError>)
      modifies this, cache
      ensures r == Register(old(accounts), bcrypt, req, userId, organizationId)
      ensures r.Ok? ==> accounts == r.value.accounts && cache.store == Stored(old(cache.store), userId, refreshToken, now)
      ensures r.Err? ==> accounts == old(accounts) && cache.store == old(cache.store)
    {
      r := Register(accounts, bcrypt, req, userId, organizationId);
      if r.Ok? {
        accounts := r.value.accounts;
        cache.Set(TokenKey(userId), refreshToken, "EX", Some(RefreshTokenSeconds), now);
      }
    }

    /** `POST /auth/login`; `refreshToken` is the token `jwt.sign` issues for the user. */
    method Login(bcrypt: Bcrypt, email: string, password: string, refreshToken: string, now: int)
      returns (r: Result<LoginSuccess, HttpError>)
      modifies this, cache
      ensures r == Authenticate(old(accounts), bcrypt, email, password, now)
      ensures r.Ok? ==> accounts == r.value.accounts
      ensures r.Ok? ==> cache.store == Stored(old(cache.store), r.value.user.id, refreshToken, now)
      ensures r.Err? ==> accounts == old(accounts) && cache.store == old(cache.store)
    {
      r := Authenticate(accounts, bcrypt, email, password, now);
      if r.Ok? {
        accounts := r.value.accounts;
        cache.Set(TokenKey(r.value.user.id), refreshToken, "EX", Some(RefreshTokenSeconds), now);
      }
    }

    /** `POST /auth/logout`: always answers 200. */
    method Logout(cookie: Option<string>, jwt: Jwt)
      modifies cache
      ensures cache.store == LoggedOut(old(cache.store), cookie, jwt)
    {
      if cookie.Some? && cookie.value != "" {
        var decoded := jwt.decode(cookie.value);
        if decoded.Some? && decoded.value.userId != "" {
          cache.Del(TokenKey(decoded.value.userId));
        }
      }
    }

    /** `POST /auth/refresh`: reading the cache may evict an expired token. */
    method Refresh(cookie: Option<string>, jwt: Jwt, now: int) returns (r: Result<Claims, HttpError>)
      modifies cache
      ensures r == RefreshDecision(old(cache.store), cookie, jwt, now)
      ensures cookie.Some? && cookie.value != "" && jwt.verify(cookie.value).Some? ==>
        cache.store == AfterRead(old(cache.store), TokenKey(jwt.verify(cookie.value).value.userId), now)
      ensures cookie.None? || cookie.value == "" || jwt.verify(cookie.value).None? ==> cache.store == old(cache.store)
    {
      if cookie.None? || cookie.value == "" {
        return Err(HttpError(401, "Refresh token required"));
      }
      var decoded := jwt.verify(cookie.value);
      if decoded.None? {
        return Err(HttpError(401, "Invalid refresh token"));
      }
      var storedToken := cache.Get(TokenKey(decoded.value.userId), now);
      if storedToken != Some(cookie.value) {
        return Err(HttpError(401, "Invalid refresh token"));
      }
      r := Ok(decoded.value);
    }
  }
}
