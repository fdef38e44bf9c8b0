/** What the account controller promises, stated over its step functions and its login function. */
module AccountProperties {

  import opened Optional
  import opened Identity
  import opened Tokens
  import opened Account

  /** An address already on file is refused first, whatever the user name, and nothing changes. */
  lemma RegisterEmailFirst(users: Store, lockout: bool, model: RegisterModel, newId: string, created: IdentityResult)
    requires WellFormed(users) && newId !in users
    requires EmailTaken(users, model.email)
    ensures RegisterStep(users, lockout, true, model, newId, created)
            == Outcome(Response(BadRequest, Message(EmailExists)), users)
  {
  }

  /** A free address with a taken user name is refused with the name message, and nothing changes. */
  lemma RegisterNameTaken(users: Store, lockout: bool, model: RegisterModel, newId: string, created: IdentityResult)
    requires WellFormed(users) && newId !in users
    requires !EmailTaken(users, model.email) && NameTaken(users, model.username)
    ensures RegisterStep(users, lockout, true, model, newId, created)
            == Outcome(Response(BadRequest, Message(UsernameExists)), users)
  {
  }

  /**
    A registration that passes both checks and that the store accepts adds exactly
    one user, holding the submitted fields; one the store refuses reports the
    store's reasons and adds nobody.
  */
  lemma RegisterCreates(users: Store, lockout: bool, model: RegisterModel, newId: string, created: IdentityResult)
    requires WellFormed(users) && newId !in users
    requires !EmailTaken(users, model.email) && !NameTaken(users, model.username)
    ensures var o := RegisterStep(users, lockout, true, model, newId, created);
      && (created.Failed? ==> o == Outcome(Response(BadRequest, Failure(RegistrationFailed, created.errors)), users))
      && (created.Succeeded? ==>
            && o.response == Response(Ok, Message(Registered))
            && o.store.Keys == users.Keys + {newId}
            && |o.store| == |users| + 1
            && (forall id :: id in users ==> o.store[id] == users[id])
            && var u := o.store[newId];
            && u.id == newId && u.userName == model.username && u.email == model.email
            && u.firstName == model.firstName && u.lastName == model.lastName
            && u.phoneNumber == model.phone && u.password == model.password)
  {
  }

  /** A user just registered can log in with the credentials it registered with. */
  lemma RegisteredUserAuthenticates(users: Store, lockout: bool, model: RegisterModel, newId: string)
    requires WellFormed(users) && newId !in users
    requires !EmailTaken(users, model.email) && !NameTaken(users, model.username)
    ensures var o := RegisterStep(users, lockout, true, model, newId, Succeeded);
      Authenticates(o.store, model.username, model.password)
  {
    var o := RegisterStep(users, lockout, true, model, newId, Succeeded);
    assert o.store[newId] == NewUser(newId, model, lockout);
  }

  /** An unknown user name and a wrong password get the very same response, whatever the clock and the token id. */
  lemma LoginFailuresAlike(c: Account.AccountController, unknown: LoginModel, wrong: LoginModel,
                           now1: int, now2: int, id1: string, id2: string)
    requires c.Valid()
    requires !NameTaken(c.users, unknown.username)
    requires NameTaken(c.users, wrong.username)
    requires FindByName(c.users, wrong.username).value.password != wrong.password
    ensures c.Login(unknown, now1, id1) == c.Login(wrong, now2, id2) == Response(BadRequest, Message(IncorrectCredentials))
  {
  }

  /**
    The token of a successful login names the user by "sub" and by the Name claim,
    carries the fresh "jti", its email, and its ID under NameIdentifier.
  */
  lemma LoginTokenClaims(c: Account.AccountController, model: LoginModel, now: int, tokenId: string)
    requires c.Valid()
    requires c.Login(model, now, tokenId).status == Ok
    ensures var b := c.Login(model, now, tokenId).body;
      && |b.token.claims| == 5
      && FindFirst(b.token.claims, SubClaim) == Some(model.username)
      && FindFirst(b.token.claims, NameClaim) == Some(model.username)
      && FindFirst(b.token.claims, JtiClaim) == Some(tokenId)
      && FindFirst(b.token.claims, NameIdentifierClaim) == Some(b.user.id)
      && FindFirst(b.token.claims, EmailClaim) == Some(b.user.email)
  {
    var b := c.Login(model, now, tokenId).body;
    var u := c.users[b.user.id];
    AuthClaimTypesDistinct(u, tokenId);
    AuthClaimsRead(u, tokenId);
  }

  /** Without an expiry setting a token lives 24 hours; with a numeral setting, that many hours. */
  lemma LoginExpiry(c: Account.AccountController, model: LoginModel, now: int, tokenId: string, hours: nat)
    requires c.Valid()
    requires c.Login(model, now, tokenId).status == Ok
    ensures c.settings.expirationInHours.None? || c.settings.expirationInHours == Some("") ==>
      c.Login(model, now, tokenId).body.expiration == now + 24 * 3600
    ensures c.settings.expirationInHours == Some(ShowNat(hours)) ==>
      c.Login(model, now, tokenId).body.expiration == now + hours * 3600
  {
  }

  /** A NameIdentifier value that is nobody's user name: both protected actions answer NotFound and change nothing. */
  lemma UnknownCallerNotFound(users: Store, principal: seq<Claim>, name: string,
                              change: ChangePasswordModel, verdict: IdentityResult,
                              update: UpdateProfileModel, saved: IdentityResult)
    requires WellFormed(users)
    requires FindFirst(principal, NameIdentifierClaim) == Some(name)
    requires !NameTaken(users, name)
    ensures ChangePasswordStep(users, true, principal, change, verdict)
            == Outcome(Response(NotFound, Message(UserNotFound)), users)
    ensures UpdateProfileStep(users, true, principal, update, saved).response.status == NotFound
    ensures UpdateProfileStep(users, true, principal, update, saved).store == users
  {
  }

  /**
    The lookup quirk: both protected actions look the caller up BY NAME with the
    NameIdentifier value, and a login token carries the user's ID there. Given
    exactly the claims of a login token, they find the caller only if some user is
    named like that ID.
  */
  lemma LoginTokenCallerLookup(c: Account.AccountController, model: LoginModel, now: int, tokenId: string,
                               change: ChangePasswordModel, verdict: IdentityResult,
                               update: UpdateProfileModel, saved: IdentityResult)
    requires c.Valid()
    requires c.Login(model, now, tokenId).status == Ok
    requires !NameTaken(c.users, c.Login(model, now, tokenId).body.user.id)
    ensures var claims := c.Login(model, now, tokenId).body.token.claims;
      && ChangePasswordStep(c.users, true, claims, change, verdict)
         == Outcome(Response(NotFound, Message(UserNotFound)), c.users)
      && UpdateProfileStep(c.users, true, claims, update, saved).response.status == NotFound
      && UpdateProfileStep(c.users, true, claims, update, saved).store == c.users
  {
    var b := c.Login(model, now, tokenId).body;
    LoginTokenClaims(c, model, now, tokenId);
    UnknownCallerNotFound(c.users, b.token.claims, b.user.id, change, verdict, update, saved);
  }

  /** A request without a NameIdentifier claim: Unauthorized for a password change, NotFound for a profile update. */
  lemma MissingIdentifier(users: Store, principal: seq<Claim>, change: ChangePasswordModel, verdict: IdentityResult,
                          update: UpdateProfileModel, saved: IdentityResult)
    requires WellFormed(users)
    requires forall i :: 0 <= i < |principal| ==> !SameClaimType(principal[i].claimType, NameIdentifierClaim)
    ensures ChangePasswordStep(users, true, principal, change, verdict)
            == Outcome(Response(Unauthorized, Message(InvalidTokenChange)), users)
    ensures UpdateProfileStep(users, true, principal, update, saved)
            == Outcome(Response(NotFound, Message(InvalidTokenUpdate)), users)
  {
  }

  /** A wrong current password changes nothing, and the old password still works. */
  lemma ChangePasswordWrongCurrent(users: Store, principal: seq<Claim>, change: ChangePasswordModel,
                                   verdict: IdentityResult, name: string)
    requires WellFormed(users)
    requires FindFirst(principal, NameIdentifierClaim) == Some(name)
    requires NameTaken(users, name)
    requires FindByName(users, name).value.password != change.currentPassword
    ensures ChangePasswordStep(users, true, principal, change, verdict)
            == Outcome(Response(BadRequest, Failure(PasswordChangeFailed, [PasswordMismatch])), users)
  {
  }

  /**
    After a successful change only the caller's record differs, and only in its
    password: the new password works for the caller and a different old one no longer does.
  */
  lemma ChangePasswordTakesEffect(users: Store, principal: seq<Claim>, change: ChangePasswordModel, name: string)
    requires WellFormed(users)
    requires FindFirst(principal, NameIdentifierClaim) == Some(name)
    requires NameTaken(users, name)
    requires FindByName(users, name).value.password == change.currentPassword
    ensures var o := ChangePasswordStep(users, true, principal, change, Succeeded);
      var u := FindByName(users, name).value;
      && o.response == Response(Ok, Message(PasswordChanged))
      && o.store == users[u.id := u.(password := change.newPassword)]
      && Authenticates(o.store, name, change.newPassword)
      && (change.newPassword != change.currentPassword ==> !Authenticates(o.store, name, change.currentPassword))
  {
    var o := ChangePasswordStep(users, true, principal, change, Succeeded);
    var u := FindByName(users, name).value;
    assert o.store[u.id].userName == name && o.store[u.id].password == change.newPassword;
  }

  /** A right current password that the store's password policy refuses: BadRequest with the store's error descriptions, nothing changed. */
  lemma ChangePasswordRefused(users: Store, principal: seq<Claim>, change: ChangePasswordModel,
                              errors: seq<string>, name: string)
    requires WellFormed(users)
    requires FindFirst(principal, NameIdentifierClaim) == Some(name)
    requires NameTaken(users, name)
    requires FindByName(users, name).value.password == change.currentPassword
    ensures ChangePasswordStep(users, true, principal, change, Failed(errors))
            == Outcome(Response(BadRequest, Failure(PasswordChangeFailed, errors)), users)
  {
  }

  /** No response projection depends on the stored password. */
  lemma ViewsIgnorePassword(u: User, password: string)
    ensures LoginViewOf(u.(password := password)) == LoginViewOf(u)
    ensures ProfileViewOf(u.(password := password)) == ProfileViewOf(u)
    ensures ListItemOf(u.(password := password)) == ListItemOf(u)
  {
  }

  /** The user list shows every field of a user but the password: two users look alike exactly when they differ at most there. */
  lemma ListItemHidesOnlyPassword(u: User, v: User)
    ensures ListItemOf(u) == ListItemOf(v) <==> u.(password := v.password) == v
  {
  }

  /** A blank field keeps the stored value; a filled one replaces it; id, email and password never change. */
  lemma MergeProfileFields(u: User, p: UpdateProfileModel)
    ensures var m := MergeProfile(u, p);
      && (Filled(p.username) ==> m.userName == p.username.value)
      && (!Filled(p.username) ==> m.userName == u.userName)
      && (Filled(p.firstName) ==> m.firstName == p.firstName.value)
      && (!Filled(p.firstName) ==> m.firstName == u.firstName)
      && (Filled(p.lastName) ==> m.lastName == p.lastName.value)
      && (!Filled(p.lastName) ==> m.lastName == u.lastName)
      && (Filled(p.phone) ==> m.phoneNumber == p.phone)
      && (!Filled(p.phone) ==> m.phoneNumber == u.phoneNumber)
      && m.id == u.id && m.email == u.email && m.password == u.password
  {
  }

  /** Sending the same profile update twice has the effect of sending it once. */
  lemma MergeProfileIdempotent(u: User, p: UpdateProfileModel)
    ensures MergeProfile(MergeProfile(u, p), p) == MergeProfile(u, p)
  {
  }

  /** A new user name held by any user is refused before any field is touched. */
  lemma UpdateProfileCollision(users: Store, principal: seq<Claim>, p: UpdateProfileModel, saved: IdentityResult,
                               name: string)
    requires WellFormed(users)
    requires FindFirst(principal, NameIdentifierClaim) == Some(name) && name != ""
    requires NameTaken(users, name)
    requires Renames(FindByName(users, name).value, p)
    requires NameTaken(users, p.username.value)
    ensures UpdateProfileStep(users, true, principal, p, saved)
            == Outcome(Response(BadRequest, Message(UsernameTaken)), users)
  {
  }

  /** An accepted update stores the merged record for the caller and nobody else, and answers with it. */
  lemma UpdateProfileApplies(users: Store, principal: seq<Claim>, p: UpdateProfileModel, name: string)
    requires WellFormed(users)
    requires FindFirst(principal, NameIdentifierClaim) == Some(name) && name != ""
    requires NameTaken(users, name)
    requires !(Renames(FindByName(users, name).value, p) && NameTaken(users, p.username.value))
    ensures var u := FindByName(users, name).value;
      var o := UpdateProfileStep(users, true, principal, p, Succeeded);
      && o.store == users[u.id := MergeProfile(u, p)]
      && o.response == Response(Ok, ProfileUpdated(ProfileUpdatedMessage, ProfileViewOf(MergeProfile(u, p))))
  {
  }

  /** An update that passes the name check but that the store refuses to save: BadRequest with the store's error descriptions, nothing changed. */
  lemma UpdateProfileRefused(users: Store, principal: seq<Claim>, p: UpdateProfileModel,
                             errors: seq<string>, name: string)
    requires WellFormed(users)
    requires FindFirst(principal, NameIdentifierClaim) == Some(name) && name != ""
    requires NameTaken(users, name)
    requires !(Renames(FindByName(users, name).value, p) && NameTaken(users, p.username.value))
    ensures UpdateProfileStep(users, true, principal, p, Failed(errors))
            == Outcome(Response(BadRequest, Failure(ProfileUpdateFailed, errors)), users)
  {
  }
}
