/** `AuthController` of the Java backend: the login, register and logout
    decisions, each from a request and the user table to a status code and a
    response body, and the mock token format. */
module AuthController {
  import opened Common
  import opened UserEntity
  import opened UserRepository
  import Services = UserService

  /** The response bodies the controller builds. `ValidationErrors` is the
      framework's own body when `@Valid` rejects the request. */
  datatype Body =
    | ErrorBody(error: string)
    | UserAndToken(user: UserRow, token: string)
    | MessageBody(message: string)
    | ValidationErrors

  datatype Response = Response(status: int, body: Body)

  const TokenPrefix := "mock-jwt-token-"

  /** `"mock-jwt-token-" + user.getId()`: Java renders a null key as "null". */
  function Token(id: Option<int>): (r: string)
    ensures |r| > |TokenPrefix| && r[..|TokenPrefix|] == TokenPrefix
    ensures id.Some? ==> r[|TokenPrefix|..] == IntToString(id.value)
  {
    match id
    case Some(i) => TokenPrefix + IntToString(i)
    case None => TokenPrefix + "null"
  }

  /** Users with different keys get different tokens. */
  lemma TokensDistinct(a: int, b: int)
    requires a != b
    ensures Token(Some(a)) != Token(Some(b))
  {
    IntToStringInjective(a, b);
  }

  /** `login`: a missing email or password is a bad request; an unknown email
      is unauthorised; a known email succeeds whatever the password. */
  function Login(users: seq<UserRow>, email: Option<string>, password: Option<string>): (r: Response)
    ensures email.None? || password.None? ==> r == Response(400, ErrorBody("Email and password are required"))
    ensures email.Some? && password.Some? && !(exists u :: u in users && u.email == email.value) ==>
      r == Response(401, ErrorBody("Invalid credentials"))
    ensures r.status == 200 <==>
      email.Some? && password.Some? && exists u :: u in users && u.email == email.value
    ensures r.status == 200 ==>
      r.body.UserAndToken? && r.body.user in users && r.body.user.email == email.value && r.body.token == Token(r.body.user.id)
  {
    if email.None? || password.None? then
      Response(400, ErrorBody("Email and password are required"))
    else
      match FindByEmail(users, email.value)
      case None => Response(401, ErrorBody("Invalid credentials"))
      case Some(u) => Response(200, UserAndToken(u, Token(u.id)))
  }

  /** The password is never checked: any two passwords give the same response. */
  lemma {:induction false} LoginIgnoresPassword(users: seq<UserRow>, email: string, p: string, q: string)
    ensures Login(users, Some(email), Some(p)) == Login(users, Some(email), Some(q))
  {
  }

  /** In a table with unique emails, a successful login returns the one user with that email. */
  lemma LoginFindsStoredUser(users: seq<UserRow>, nextId: int, k: nat, password: string)
    requires WellFormed(users, nextId) && k < |users|
    ensures Login(users, Some(users[k].email), Some(password)) == Response(200, UserAndToken(users[k], Token(users[k].id)))
  {
    FindByEmailOfStored(users, nextId, k);
  }

  /** `logout`: always 200 with the same message. */
  function Logout(): (r: Response)
    ensures r.status == 200 && r.body == MessageBody("Logged out successfully")
  {
    Response(200, MessageBody("Logged out successfully"))
  }

  class AuthController {
    const userService: Services.UserService

    constructor (userService: Services.UserService)
      ensures this.userService == userService
    {
      this.userService := userService;
    }

    /** `register`: a request failing bean validation is rejected before the
        service is called; a taken email is reported with the service's
        message; otherwise the user is created and 201 carries its token. */
    method Register(user: User, now: Timestamp) returns (r: Response)
      requires userService.Valid() && user.id.None?
      modifies userService.users, user
      ensures userService.Valid()
      ensures !IsValid(old(user.Row())) ==>
        r == Response(400, ValidationErrors) && userService.users.rows == old(userService.users.rows)
      ensures IsValid(old(user.Row())) && old(ExistsByEmail(userService.users.rows, user.email)) ==>
        r == Response(400, ErrorBody("Email already exists")) && userService.users.rows == old(userService.users.rows)
      ensures IsValid(old(user.Row())) && !old(ExistsByEmail(userService.users.rows, user.email)) ==>
        var saved := old(user.Row()).(id := Some(old(userService.users.nextId)), createdAt := Some(now), updatedAt := Some(now));
        && r == Response(201, UserAndToken(saved, Token(Some(old(userService.users.nextId)))))
        && userService.users.rows == old(userService.users.rows) + [saved]
      ensures r.status == 201 ==>
        Login(userService.users.rows, Some(r.body.user.email), Some("")) == Response(200, r.body)
    {
      if !IsValid(user.Row()) {
        return Response(400, ValidationErrors);
      }
      var created := userService.CreateUser(user, now);
      if created.Err? {
        return Response(400, ErrorBody(created.message));
      }
      r := Response(201, UserAndToken(created.value, Token(created.value.id)));
    }
  }
}
