/**
 * Accounts as both authentication controllers create them: users keyed by
 * their unique email, organisations with a unique subdomain derived from the
 * organisation's name, and the decisions of signup and login.
 *
 * bcrypt is abstract (`Bcrypt`): the stored hash is whatever `hash` gives for
 * the password, and login asks `compare`. Fresh ids and the clock are
 * parameters.
 */
module Accounts {
  import opened Wrappers
  import opened Js
  import opened Domain

  datatype Role = Owner | Admin | Member | Viewer
  datatype PlanTier = Free | Growth | Scale | Enterprise

  datatype User = User(
    id: string,
    email: string,
    passwordHash: string,
    firstName: string,
    lastName: string,
    role: Role,
    organizationId: string,
    lastLoginAt: Option<int>)

  datatype Organization = Organization(id: string, name: string, subdomain: string, planTier: PlanTier)

  /** The users by email and the organisations by id. */
  datatype Accounts = Accounts(users: map<string, User>, organizations: map<string, Organization>)

  /** `bcrypt.hash` (run by the `beforeCreate` hook) and `bcrypt.compare`. */
  datatype Bcrypt = Bcrypt(hash: string -> string, compare: (string, string) -> bool)

  // ---------------------------------------------------------------------
  // The subdomain slug
  // ---------------------------------------------------------------------

  /** The characters the regular expression class `\s` matches. */
  predicate IsSpace(c: char) {
    ('\t' <= c <= '\r') || c == ' ' || c == '\U{00A0}' || c == '\U{1680}' ||
    ('\U{2000}' <= c <= '\U{200A}') || c == '\U{2028}' || c == '\U{2029}' ||
    c == '\U{202F}' || c == '\U{205F}' || c == '\U{3000}' || c == '\U{FEFF}'
  }

  predicate NoSpace(s: string) {
    forall i :: 0 <= i < |s| ==> !IsSpace(s[i])
  }

  predicate NoUpper(s: string) {
    forall i :: 0 <= i < |s| ==> !('A' <= s[i] <= 'Z')
  }

  /** s without its leading whitespace. */
  function DropSpaces(s: string): (r: string)
    ensures |r| <= |s|
    ensures r == [] || !IsSpace(r[0])
    ensures r == s[|s| - |r|..]
  {
    if s != [] && IsSpace(s[0]) then DropSpaces(s[1..]) else s
  }

  /** `s.replace(/\s+/g, '-')`: every maximal run of whitespace becomes one '-'. */
  function Collapse(s: string): string
    decreases |s|
  {
    if s == [] then []
    else if IsSpace(s[0]) then "-" + Collapse(DropSpaces(s[1..]))
    else [s[0]] + Collapse(s[1..])
  }

  /** `organizationName.toLowerCase().replace(/\s+/g, '-')`. */
  function Slug(organizationName: string): string {
    Collapse(Lower(organizationName))
  }

  /** The slug contains no whitespace. */
  lemma {:induction false} CollapseNoSpace(s: string)
    ensures NoSpace(Collapse(s))
    decreases |s|
  {
    if s != [] {
      if IsSpace(s[0]) {
        CollapseNoSpace(DropSpaces(s[1..]));
      } else {
        CollapseNoSpace(s[1..]);
      }
    }
  }

  /** Text without whitespace is left as it is. */
  lemma {:induction false} CollapseIdentity(s: string)
    requires NoSpace(s)
    ensures Collapse(s) == s
    decreases |s|
  {
    if s != [] {
      assert !IsSpace(s[0]);
      CollapseIdentity(s[1..]);
    }
  }

  /** A run of whitespace of any length, followed by a non-space or the end, becomes a single '-'. */
  lemma CollapseRun(run: string, rest: string)
    requires |run| >= 1 && forall i :: 0 <= i < |run| ==> IsSpace(run[i])
    requires rest == [] || !IsSpace(rest[0])
    ensures Collapse(run + rest) == "-" + Collapse(rest)
  {
    DropRun((run + rest)[1..], |run| - 1, rest);
  }

  lemma {:induction false} DropRun(s: string, k: nat, rest: string)
    requires k <= |s| && s[k..] == rest && (forall i :: 0 <= i < k ==> IsSpace(s[i]))
    requires rest == [] || !IsSpace(rest[0])
    ensures DropSpaces(s) == rest
    decreases k
  {
    if k > 0 {
      assert s[1..][k - 1..] == s[k..];
      DropRun(s[1..], k - 1, rest);
    }
  }

  /** Every character of the result is a '-' or a character of the input. */
  lemma {:induction false} CollapseKeepsNoUpper(s: string)
    requires NoUpper(s)
    ensures NoUpper(Collapse(s))
    decreases |s|
  {
    if s != [] {
      if IsSpace(s[0]) {
        var t := DropSpaces(s[1..]);
        assert forall i :: 0 <= i < |t| ==> t[i] == s[1..][|s| - 1 - |t| + i];
        CollapseKeepsNoUpper(t);
      } else {
        CollapseKeepsNoUpper(s[1..]);
      }
    }
  }

  /** Helper for SlugIdempotent: lowercasing a string without uppercase letters changes nothing. */
  lemma LowerIdentity(s: string)
    requires NoUpper(s)
    ensures Lower(s) == s
  {
  }

  /**
   * The slug is lowercase and free of whitespace, so slugging it again
   * changes nothing; a name that is already such a string is its own slug.
   */
  lemma SlugProperties(organizationName: string)
    ensures NoSpace(Slug(organizationName)) && NoUpper(Slug(organizationName))
    ensures Slug(Slug(organizationName)) == Slug(organizationName)
    ensures NoSpace(organizationName) && NoUpper(organizationName) ==> Slug(organizationName) == organizationName
  {
    var lowered := Lower(organizationName);
    assert NoUpper(lowered);
    CollapseNoSpace(lowered);
    CollapseKeepsNoUpper(lowered);
    var slug := Slug(organizationName);
    LowerIdentity(slug);
    CollapseIdentity(slug);
    if NoSpace(organizationName) && NoUpper(organizationName) {
      LowerIdentity(organizationName);
      CollapseIdentity(organizationName);
    }
  }

  // ---------------------------------------------------------------------
  // Signup and login
  // ---------------------------------------------------------------------

  predicate SubdomainTaken(a: Accounts, subdomain: string) {
    exists id :: id in a.organizations && a.organizations[id].subdomain == subdomain
  }

  /** Emails key the users, and no two organisations share a subdomain (both columns are unique). */
  predicate Consistent(a: Accounts) {
    (forall e :: e in a.users ==> a.users[e].email == e) &&
    (forall o :: o in a.organizations ==> a.organizations[o].id == o) &&
    (forall o1, o2 :: o1 in a.organizations && o2 in a.organizations && o1 != o2 ==>
       a.organizations[o1].subdomain != a.organizations[o2].subdomain)
  }

  /** What a successful signup creates. */
  datatype Registration = Registration(accounts: Accounts, user: User, organization: Organization)

  /** The signup request's fields. */
  datatype SignupRequest = SignupRequest(
    email: string, password: string, firstName: string, lastName: string, organizationName: string)

  /**
   * `signup`: refused with 400 for a registered email; an organisation whose
   * slug is taken makes `Organization.create` violate the unique subdomain,
   * which the handler reports as a 500; otherwise a free-tier organisation and
   * its owner are created.
   */
  function Register(a: Accounts, bcrypt: Bcrypt, req: SignupRequest, userId: string, organizationId: string)
    : Result<Registration, HttpError>
  {
    if req.email in a.users then Err(HttpError(400, "Email already registered"))
    else if SubdomainTaken(a, Slug(req.organizationName)) || organizationId in a.organizations then
      Err(HttpError(500, "Internal server error"))
    else
      var organization := Organization(organizationId, req.organizationName, Slug(req.organizationName), Free);
      var user := User(userId, req.email, bcrypt.hash(req.password), req.firstName, req.lastName, Owner, organizationId, None);
      Ok(Registration(Accounts(a.users[req.email := user], a.organizations[organizationId := organization]), user, organization))
  }

  /**
   * Signup succeeds exactly for a new email whose organisation slug is free;
   * it then adds exactly one user, an owner, and exactly one free-tier
   * organisation, and keeps the accounts consistent.
   */
  lemma RegisterProperties(a: Accounts, bcrypt: Bcrypt, req: SignupRequest, userId: string, organizationId: string)
    ensures var r := Register(a, bcrypt, req, userId, organizationId);
      (req.email in a.users ==> r == Err(HttpError(400, "Email already registered"))) &&
      (r.Ok? <==> req.email !in a.users && !SubdomainTaken(a, Slug(req.organizationName)) && organizationId !in a.organizations) &&
      (r.Ok? ==>
        r.value.user.role == Owner && r.value.user.organizationId == organizationId &&
        r.value.user.email == req.email && r.value.user.passwordHash == bcrypt.hash(req.password) &&
        r.value.organization.planTier == Free && r.value.organization.subdomain == Slug(req.organizationName) &&
        r.value.accounts.users.Keys == a.users.Keys + {req.email} &&
        r.value.accounts.organizations.Keys == a.organizations.Keys + {organizationId} &&
        (forall e :: e in a.users ==> r.value.accounts.users[e] == a.users[e]) &&
        (forall o :: o in a.organizations ==> r.value.accounts.organizations[o] == a.organizations[o]) &&
        (Consistent(a) ==> Consistent(r.value.accounts)))
  {
    var r := Register(a, bcrypt, req, userId, organizationId);
    if r.Ok? && Consistent(a) {
      var orgs := r.value.accounts.organizations;
      forall o1, o2 | o1 in orgs && o2 in orgs && o1 != o2
        ensures orgs[o1].subdomain != orgs[o2].subdomain
      {
        if o1 == organizationId {
          assert !(o2 in a.organizations && a.organizations[o2].subdomain == Slug(req.organizationName));
        } else if o2 == organizationId {
          assert !(o1 in a.organizations && a.organizations[o1].subdomain == Slug(req.organizationName));
        }
      }
    }
  }

  /** What a successful login yields: the accounts after it and the user as saved. */
  datatype LoginSuccess = LoginSuccess(accounts: Accounts, user: User)

  /** `login`: one 401 for an unknown email and a wrong password alike; success records the login time. */
  function Authenticate(a: Accounts, bcrypt: Bcrypt, email: string, password: string, now: int): Result<LoginSuccess, HttpError> {
    if email !in a.users || !bcrypt.compare(password, a.users[email].passwordHash) then
      Err(HttpError(401, "Invalid credentials"))
    else
      var user := a.users[email].(lastLoginAt := Some(now));
      Ok(LoginSuccess(a.(users := a.users[email := user]), user))
  }

  /**
   * Login succeeds exactly for a known email with a matching password;
   * otherwise the caller cannot tell which of the two was wrong. Success
   * changes nothing but that user's last login time.
   */
  lemma AuthenticateProperties(a: Accounts, bcrypt: Bcrypt, email: string, password: string, now: int)
    ensures var r := Authenticate(a, bcrypt, email, password, now);
      (r.Ok? <==> email in a.users && bcrypt.compare(password, a.users[email].passwordHash)) &&
      (r.Err? ==> r.error == HttpError(401, "Invalid credentials")) &&
      (r.Ok? ==>
        r.value.user == a.users[email].(lastLoginAt := Some(now)) &&
        r.value.accounts.organizations == a.organizations &&
        r.value.accounts.users == a.users[email := r.value.user] &&
        (Consistent(a) ==> Consistent(r.value.accounts)))
  {
  }
}
