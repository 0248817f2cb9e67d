/**
 * The token-free `AuthController` of `simple-auth.controller.ts`: the same
 * signup and login decisions as the full controller, with no refresh tokens
 * and a logout that only answers.
 */
module SimpleAuth {
  import opened Wrappers
  import opened Domain
  import opened Accounts

  /** The logout response's message. */
  const LoggedOutMessage: string := "Logged out successfully"

  class SimpleAuthController {
    var accounts: Accounts

    constructor(initial: Accounts)
      ensures accounts == initial
    {
      accounts := initial;
    }

    /** `signup`: writes the organisation and its owner, or nothing on a refusal. */
    method Signup(bcrypt: Bcrypt, req: SignupRequest, userId: string, organizationId: string)
      returns (r: Result<Registration, HttpError>)
      modifies this
      ensures r == Register(old(accounts), bcrypt, req, userId, organizationId)
      ensures r.Ok? ==> accounts == r.value.accounts
      ensures r.Err? ==> accounts == old(accounts)
    {
      r := Register(accounts, bcrypt, req, userId, organizationId);
      if r.Ok? {
        accounts := r.value.accounts;
      }
    }

    /** `login`: records the login time of an authenticated user. */
    method Login(bcrypt: Bcrypt, email: string, password: string, now: int)
      returns (r: Result<LoginSuccess, HttpError>)
      modifies this
      ensures r == Authenticate(old(accounts), bcrypt, email, password, now)
      ensures r.Ok? ==> accounts == r.value.accounts
      ensures r.Err? ==> accounts == old(accounts)
    {
      r := Authenticate(accounts, bcrypt, email, password, now);
      if r.Ok? {
        accounts := r.value.accounts;
      }
    }

    /** `logout`: always 200, and no state is read or written. */
    method Logout() returns (status: int, message: string)
      ensures status == 200 && message == LoggedOutMessage
    {
      status := 200;
      message := LoggedOutMessage;
    }
  }
}
