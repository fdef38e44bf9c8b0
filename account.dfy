/**
  The decisions of ScheduleApp/Controllers/AccountController.cs over the identity
  store. Each state-changing action is specified by a step function from the store
  before to the response and the store after; the controller class performs the
  action step by step and is proved to agree with it.
*/
module Account {

  import opened Optional
  import opened Identity
  import opened Tokens

  datatype Status = Ok | BadRequest | Unauthorized | NotFound | InternalServerError

  /** The user as the login response shows it: never the password. */
  datatype LoginView = LoginView(id: string, username: string, email: string, firstName: string, lastName: string)

  /** The user as the profile update response shows it. */
  datatype ProfileView = ProfileView(
    id: string, username: string, email: string,
    firstName: string, lastName: string, phone: Option<string>)

  /** One entry of the user list. */
  datatype UserListItem = UserListItem(
    id: string, username: string, email: string, firstName: string, lastName: string,
    phone: Option<string>, emailConfirmed: bool, lockoutEnabled: bool, accessFailedCount: nat)

  /** Response bodies; `ModelErrors` is the framework's model-validation report, `Unhandled` an escaped exception. */
  datatype Body =
    | Message(message: string)
    | Failure(message: string, errors: seq<string>)
    | ModelErrors
    | Unhandled
    | LoggedIn(message: string, token: Token, expiration: int, user: LoginView)
    | ProfileUpdated(message: string, profile: ProfileView)
    | UserList(message: string, count: nat, users: seq<UserListItem>)

  datatype Response = Response(status: Status, body: Body)

  /** A response together with the store the action leaves behind. */
  datatype Outcome = Outcome(response: Response, store: Store)

  const EmailExists := "User with this email already exists"
  const UsernameExists := "Username is already exists"
  const Registered := "User registered successfully"
  const RegistrationFailed := "Registration failed"
  const LoginSucceeded := "Login successful"
  const IncorrectCredentials := "Username or password is incorrect."
  const UsersRetrieved := "Users retrieved successfully"
  const InvalidTokenChange := "Invalid token"
  const InvalidTokenUpdate := "Invalid Token"
  const UserNotFound := "User not found"
  const PasswordChanged := "Password changed successfully"
  const PasswordChangeFailed := "Password change failed"
  const UsernameTaken := "Username is already taken by another user."
  const ProfileUpdatedMessage := "Profile updated successfully."
  const ProfileUpdateFailed := "Profile update failed"

  function LoginViewOf(u: User): LoginView
  {
    LoginView(u.id, u.userName, u.email, u.firstName, u.lastName)
  }

  function ProfileViewOf(u: User): ProfileView
  {
    ProfileView(u.id, u.userName, u.email, u.firstName, u.lastName, u.phoneNumber)
  }

  function ListItemOf(u: User): UserListItem
  {
    UserListItem(u.id, u.userName, u.email, u.firstName, u.lastName, u.phoneNumber,
                 u.emailConfirmed, u.lockoutEnabled, u.accessFailedCount)
  }

  /** The user `Register` hands to `CreateAsync`; `lockout` is the framework's setting for new users. */
  function NewUser(id: string, model: RegisterModel, lockout: bool): User
  {
    User(id, model.username, model.email, model.firstName, model.lastName, model.phone,
         model.password, false, lockout, 0)
  }

  /** Not `string.IsNullOrEmpty`. */
  predicate Filled(v: Option<string>)
  {
    v.Some? && v.value != ""
  }

  /** A field of the profile after the "ignore blank fields" rule. */
  function Overlay(current: string, incoming: Option<string>): string
  {
    if Filled(incoming) then incoming.value else current
  }

  function OverlayPhone(current: Option<string>, incoming: Option<string>): Option<string>
  {
    if Filled(incoming) then incoming else current
  }

  /** Whether the update asks for a user name other than the current one. */
  predicate Renames(u: User, p: UpdateProfileModel)
  {
    Filled(p.username) && p.username.value != u.userName
  }

  /** The user after a profile update that passed the name check. */
  function MergeProfile(u: User, p: UpdateProfileModel): User
  {
    u.(userName := Overlay(u.userName, p.username),
       firstName := Overlay(u.firstName, p.firstName),
       lastName := Overlay(u.lastName, p.lastName),
       phoneNumber := OverlayPhone(u.phoneNumber, p.phone))
  }

  /**
    `Register`: model validation, then the email check, then the name check, then
    creation under the fresh id `newId`; `created` is what `CreateAsync` reports.
  */
  function RegisterStep(users: Store, lockout: bool, modelStateValid: bool, model: RegisterModel,
                        newId: string, created: IdentityResult): (o: Outcome)
    requires WellFormed(users)
    requires newId !in users
    ensures WellFormed(o.store)
    ensures o.response.status != Ok ==> o.store == users
    ensures o.response.status == Ok ==> o.store.Keys == users.Keys + {newId}
  {
    if !modelStateValid then Outcome(Response(BadRequest, ModelErrors), users)
    else if FindByEmail(users, model.email).Some? then Outcome(Response(BadRequest, Message(EmailExists)), users)
    else if FindByName(users, model.username).Some? then Outcome(Response(BadRequest, Message(UsernameExists)), users)
    else match created
      case Succeeded =>
        var store := users[newId := NewUser(newId, model, lockout)];
        assert WellFormed(store) by {
          forall a, b | a in store && b in store && store[a].userName == store[b].userName
            ensures a == b
          {
            if a == newId || b == newId {
              assert !NameTaken(users, model.username);
            }
          }
          forall a, b | a in store && b in store && store[a].email == store[b].email
            ensures a == b
          {
            if a == newId || b == newId {
              assert !EmailTaken(users, model.email);
            }
          }
        }
        Outcome(Response(Ok, Message(Registered)), store)
      case Failed(errors) => Outcome(Response(BadRequest, Failure(RegistrationFailed, errors)), users)
  }

  /**
    `ChangePassword`: the caller is the user NAMED by the principal's NameIdentifier
    claim; `ChangePasswordAsync` fails on a wrong current password and otherwise
    gives `verdict`, the store's answer on the new password.
  */
  function ChangePasswordStep(users: Store, modelStateValid: bool, principal: seq<Claim>,
                              model: ChangePasswordModel, verdict: IdentityResult): (o: Outcome)
    requires WellFormed(users)
    ensures WellFormed(o.store)
    ensures o.store.Keys == users.Keys
    ensures o.response.status != Ok ==> o.store == users
    ensures forall id :: id in users ==>
      o.store[id] == users[id] || o.store[id] == users[id].(password := model.newPassword)
    ensures forall a, b :: a in users && b in users && o.store[a] != users[a] && o.store[b] != users[b] ==> a == b
    ensures verdict.Failed? ==> o.response.status != Ok && o.store == users
  {
    if !modelStateValid then Outcome(Response(BadRequest, ModelErrors), users)
    else match FindFirst(principal, NameIdentifierClaim)
      case None => Outcome(Response(Unauthorized, Message(InvalidTokenChange)), users)
      case Some(userId) =>
        match FindByName(users, userId)
        case None => Outcome(Response(NotFound, Message(UserNotFound)), users)
        case Some(u) =>
          if model.currentPassword != u.password then
            Outcome(Response(BadRequest, Failure(PasswordChangeFailed, [PasswordMismatch])), users)
          else match verdict
            case Succeeded =>
              Outcome(Response(Ok, Message(PasswordChanged)), users[u.id := u.(password := model.newPassword)])
            case Failed(errors) =>
              Outcome(Response(BadRequest, Failure(PasswordChangeFailed, errors)), users)
  }

  /**
    `UpdateProfile`: the caller is found as in `ChangePassword` (a missing or empty
    claim is NotFound here); a new name already held by a user is refused before
    anything changes; `saved` is what `UpdateAsync` reports.
  */
  function UpdateProfileStep(users: Store, modelStateValid: bool, principal: seq<Claim>,
                             model: UpdateProfileModel, saved: IdentityResult): (o: Outcome)
    requires WellFormed(users)
    ensures WellFormed(o.store)
    ensures o.store.Keys == users.Keys
    ensures o.response.status != Ok ==> o.store == users
    ensures forall id :: id in users ==>
      o.store[id].id == id && o.store[id].email == users[id].email && o.store[id].password == users[id].password
    ensures saved.Failed? ==> o.response.status != Ok && o.store == users
  {
    if !modelStateValid then Outcome(Response(BadRequest, ModelErrors), users)
    else
      var userId := FindFirst(principal, NameIdentifierClaim);
      if !Filled(userId) then Outcome(Response(NotFound, Message(InvalidTokenUpdate)), users)
      else match FindByName(users, userId.value)
        case None => Outcome(Response(NotFound, Message(UserNotFound)), users)
        case Some(u) =>
          if Renames(u, model) && FindByName(users, model.username.value).Some? then
            Outcome(Response(BadRequest, Message(UsernameTaken)), users)
          else
            var merged := MergeProfile(u, model);
            match saved
            case Succeeded =>
              var store := users[u.id := merged];
              assert WellFormed(store) by {
                forall a, b | a in store && b in store && store[a].userName == store[b].userName
                  ensures a == b
                {
                  if (a == u.id || b == u.id) && Renames(u, model) {
                    assert !NameTaken(users, model.username.value);
                  }
                }
              }
              Outcome(Response(Ok, ProfileUpdated(ProfileUpdatedMessage, ProfileViewOf(merged))), store)
            case Failed(errors) =>
              Outcome(Response(BadRequest, Failure(ProfileUpdateFailed, errors)), users)
  }

  /** The projection of `GetAllUsers`: one list entry per stored user. */
  method ListUsers(users: Store) returns (items: seq<UserListItem>)
    requires FiledById(users)
    ensures |items| == |users|
    ensures forall id :: id in users ==> ListItemOf(users[id]) in items
    ensures forall i :: 0 <= i < |items| ==> items[i].id in users && items[i] == ListItemOf(users[items[i].id])
    ensures forall i, j :: 0 <= i < j < |items| ==> items[i].id != items[j].id
  {
    var remaining := users.Keys;
    items := [];
    while remaining != {}
      invariant remaining <= users.Keys
      invariant |items| + |remaining| == |users.Keys|
      invariant forall id :: id in users && id !in remaining ==> ListItemOf(users[id]) in items
      invariant forall i :: 0 <= i < |items| ==>
        items[i].id in users && items[i].id !in remaining && items[i] == ListItemOf(users[items[i].id])
      invariant forall i, j :: 0 <= i < j < |items| ==> items[i].id != items[j].id
      decreases remaining
    {
      var id :| id in remaining;
      items := items + [ListItemOf(users[id])];
      remaining := remaining - {id};
    }
    assert |users.Keys| == |users|;
  }

  /** The account controller over the identity store it reads and changes. */
  class AccountController {

    var users: Store

    const settings: JwtSettings

    /** The framework's "lockout allowed for new users" option. */
    const lockoutForNewUsers: bool

    ghost predicate Valid()
      reads this
    {
      WellFormed(users)
    }

    constructor (users: Store, settings: JwtSettings, lockoutForNewUsers: bool)
      requires WellFormed(users)
      ensures Valid()
      ensures this.users == users && this.settings == settings && this.lockoutForNewUsers == lockoutForNewUsers
    {
      this.users := users;
      this.settings := settings;
      this.lockoutForNewUsers := lockoutForNewUsers;
    }

    /** `newId` is the fresh id the framework gives a new user; `created` is the verdict of `CreateAsync`. */
    method Register(modelStateValid: bool, model: RegisterModel, newId: string, created: IdentityResult)
      returns (r: Response)
      requires Valid()
      requires newId !in users
      modifies this
      ensures Valid()
      ensures r == RegisterStep(old(users), lockoutForNewUsers, modelStateValid, model, newId, created).response
      ensures users == RegisterStep(old(users), lockoutForNewUsers, modelStateValid, model, newId, created).store
    {
      if !modelStateValid {
        return Response(BadRequest, ModelErrors);
      }
      var existingUser := FindByEmail(users, model.email);
      if existingUser.Some? {
        return Response(BadRequest, Message(EmailExists));
      }
      var existingUsername := FindByName(users, model.username);
      if existingUsername.Some? {
        return Response(BadRequest, Message(UsernameExists));
      }
      var user := NewUser(newId, model, lockoutForNewUsers);
      if created.Succeeded? {
        users := users[newId := user];
        return Response(Ok, Message(Registered));
      }
      return Response(BadRequest, Failure(RegistrationFailed, created.errors));
    }

    /**
      `Login`: one answer for an unknown name and a wrong password; on success a
      token with the five login claims, expiring the configured number of hours
      after `now`. `tokenId` is the fresh GUID of the "jti" claim. A setting that
      does not parse, or a missing or empty secret key, makes the action throw.
    */
    function Login(model: LoginModel, now: int, tokenId: string): (r: Response)
      reads this
      requires Valid()
      ensures r.status == BadRequest <==> !Authenticates(users, model.username, model.password)
      ensures r.status == BadRequest ==> r.body == Message(IncorrectCredentials)
      ensures r.status == Ok <==>
        && Authenticates(users, model.username, model.password)
        && ExpiryHours(settings.expirationInHours).Some?
        && Filled(settings.secretKey)
      ensures r.status == InternalServerError ==> r.body == Unhandled
      ensures Authenticates(users, model.username, model.password)
              && (ExpiryHours(settings.expirationInHours).None? || !Filled(settings.secretKey))
              ==> r == Response(InternalServerError, Unhandled)
      ensures r.status == Ok ==>
        && r.body.LoggedIn?
        && r.body.message == LoginSucceeded
        && r.body.user.id in users
        && var u := users[r.body.user.id];
        && u.userName == model.username && u.password == model.password
        && r.body.user == LoginViewOf(u)
        && r.body.token == Token(settings.issuer, settings.audience, AuthClaims(u, tokenId),
                                 ExpiresAt(now, ExpiryHours(settings.expirationInHours).value))
        && r.body.expiration == r.body.token.expires
    {
      match FindByName(users, model.username)
      case None => Response(BadRequest, Message(IncorrectCredentials))
      case Some(user) =>
        if user.password != model.password then Response(BadRequest, Message(IncorrectCredentials))
        else
          var claims := AuthClaims(user, tokenId);
          match ExpiryHours(settings.expirationInHours)
          case None => Response(InternalServerError, Unhandled)
          case Some(hours) =>
            if !Filled(settings.secretKey) then Response(InternalServerError, Unhandled)
            else
              var token := Token(settings.issuer, settings.audience, claims, ExpiresAt(now, hours));
              Response(Ok, LoggedIn(LoginSucceeded, token, token.expires, LoginViewOf(user)))
    }

    /** `GetAllUsers`: every stored user exactly once, in no particular order. */
    method GetAllUsers() returns (r: Response)
      requires Valid()
      ensures r.status == Ok && r.body.UserList? && r.body.message == UsersRetrieved
      ensures r.body.count == |r.body.users| == |users|
      ensures forall id :: id in users ==> ListItemOf(users[id]) in r.body.users
      ensures forall i :: 0 <= i < |r.body.users| ==>
        r.body.users[i].id in users && r.body.users[i] == ListItemOf(users[r.body.users[i].id])
      ensures forall i, j :: 0 <= i < j < |r.body.users| ==> r.body.users[i].id != r.body.users[j].id
    {
      var items := ListUsers(users);
      return Response(Ok, UserList(UsersRetrieved, |items|, items));
    }

    /** `principal` holds the claims the authentication middleware found on the request. */
    method ChangePassword(modelStateValid: bool, principal: seq<Claim>, model: ChangePasswordModel,
                          verdict: IdentityResult)
      returns (r: Response)
      requires Valid()
      modifies this
      ensures Valid()
      ensures r == ChangePasswordStep(old(users), modelStateValid, principal, model, verdict).response
      ensures users == ChangePasswordStep(old(users), modelStateValid, principal, model, verdict).store
    {
      if !modelStateValid {
        return Response(BadRequest, ModelErrors);
      }
      var userId := FindFirst(principal, NameIdentifierClaim);
      if userId.None? {
        return Response(Unauthorized, Message(InvalidTokenChange));
      }
      var user := FindByName(users, userId.value);
      if user.None? {
        return Response(NotFound, Message(UserNotFound));
      }
      var result := if model.currentPassword != user.value.password then Failed([PasswordMismatch]) else verdict;
      if result.Succeeded? {
        users := users[user.value.id := user.value.(password := model.newPassword)];
        return Response(Ok, Message(PasswordChanged));
      }
      return Response(BadRequest, Failure(PasswordChangeFailed, result.errors));
    }

    /** The fetched user is changed field by field, then saved; `saved` is the verdict of `UpdateAsync`. */
    method UpdateProfile(modelStateValid: bool, principal: seq<Claim>, model: UpdateProfileModel,
                         saved: IdentityResult)
      returns (r: Response)
      requires Valid()
      modifies this
      ensures Valid()
      ensures r == UpdateProfileStep(old(users), modelStateValid, principal, model, saved).response
      ensures users == UpdateProfileStep(old(users), modelStateValid, principal, model, saved).store
    {
      ghost var step := UpdateProfileStep(users, modelStateValid, principal, model, saved);
      if !modelStateValid {
        return Response(BadRequest, ModelErrors);
      }
      var userId := FindFirst(principal, NameIdentifierClaim);
      if !Filled(userId) {
        assert step == Outcome(Response(NotFound, Message(InvalidTokenUpdate)), users);
        return Response(NotFound, Message(InvalidTokenUpdate));
      }
      var found := FindByName(users, userId.value);
      if found.None? {
        assert step == Outcome(Response(NotFound, Message(UserNotFound)), users);
        return Response(NotFound, Message(UserNotFound));
      }
      var user := found.value;
      if Filled(model.username) && model.username.value != user.userName {
        var existingUsername := FindByName(users, model.username.value);
        if existingUsername.Some? {
          assert step == Outcome(Response(BadRequest, Message(UsernameTaken)), users);
          return Response(BadRequest, Message(UsernameTaken));
        }
        user := user.(userName := model.username.value);
      }
      if Filled(model.firstName) && model.firstName.value != user.firstName {
        user := user.(firstName := model.firstName.value);
      }
      if Filled(model.lastName) && model.lastName.value != user.lastName {
        user := user.(lastName := model.lastName.value);
      }
      if Filled(model.phone) && model.phone != user.phoneNumber {
        user := user.(phoneNumber := model.phone);
      }
      assert user == MergeProfile(found.value, model);
      assert !(Renames(found.value, model) && FindByName(users, model.username.value).Some?);
      if saved.Succeeded? {
        assert step == Outcome(Response(Ok, ProfileUpdated(ProfileUpdatedMessage, ProfileViewOf(user))),
                               users[user.id := user]);
        users := users[user.id := user];
        return Response(Ok, ProfileUpdated(ProfileUpdatedMessage, ProfileViewOf(user)));
      }
      assert step == Outcome(Response(BadRequest, Failure(ProfileUpdateFailed, saved.errors)), users);
      return Response(BadRequest, Failure(ProfileUpdateFailed, saved.errors));
    }
  }
}
