/**
  The records of ScheduleApp/Models/Auth/Register.cs and the part of the identity
  framework's user manager that the account controller consults. The store is the
  map from user id to user; the password stands for its stored hash, so checking a
  password is comparing it with the stored one.
*/
module Identity {

  import opened Optional

  /** `ApplicationUser`: the framework's user row plus first and last name. */
  datatype User = User(
    id: string,
    userName: string,
    email: string,
    firstName: string,
    lastName: string,
    phoneNumber: Option<string>,
    password: string,
    emailConfirmed: bool,
    lockoutEnabled: bool,
    accessFailedCount: nat)

  type Store = map<string, User>

  /** Request bodies. */
  datatype RegisterModel = RegisterModel(
    username: string, password: string, email: string,
    firstName: string, lastName: string, phone: Option<string>)

  datatype LoginModel = LoginModel(username: string, password: string)

  datatype ChangePasswordModel = ChangePasswordModel(currentPassword: string, newPassword: string)

  datatype UpdateProfileModel = UpdateProfileModel(
    username: Option<string>, firstName: Option<string>,
    lastName: Option<string>, phone: Option<string>)

  /** The framework's `IdentityResult`: success, or the descriptions of what failed. */
  datatype IdentityResult = Succeeded | Failed(errors: seq<string>)

  /** The description the framework gives a wrong current password. */
  const PasswordMismatch := "Incorrect password."

  /**
    The store as the actions keep it: each user filed under its own id and no two
    users with one user name, which the framework enforces; no two with one email
    address, which holds only because `Register` checks the email before every
    creation (the framework does not require unique emails by default).
  */
  ghost predicate WellFormed(users: Store)
  {
    FiledById(users) && UniqueNames(users) && UniqueEmails(users)
  }

  ghost predicate FiledById(users: Store)
  {
    forall id :: id in users ==> users[id].id == id
  }

  ghost predicate UniqueNames(users: Store)
  {
    forall a, b :: a in users && b in users && users[a].userName == users[b].userName ==> a == b
  }

  ghost predicate UniqueEmails(users: Store)
  {
    forall a, b :: a in users && b in users && users[a].email == users[b].email ==> a == b
  }

  ghost predicate NameTaken(users: Store, name: string)
  {
    exists id :: id in users && users[id].userName == name
  }

  ghost predicate EmailTaken(users: Store, email: string)
  {
    exists id :: id in users && users[id].email == email
  }

  /** Whether some user has exactly these credentials. */
  ghost predicate Authenticates(users: Store, name: string, password: string)
  {
    exists id :: id in users && users[id].userName == name && users[id].password == password
  }

  /** `FindByNameAsync`: the user holding the name, if any. */
  function FindByName(users: Store, name: string): (r: Option<User>)
    requires WellFormed(users)
    ensures r.None? <==> !NameTaken(users, name)
    ensures r.Some? ==> r.value.id in users && users[r.value.id] == r.value && r.value.userName == name
  {
    if exists id :: id in users && users[id].userName == name then
      var id :| id in users && users[id].userName == name;
      Some(users[id])
    else
      None
  }

  /** `FindByEmailAsync`: the user holding the address, if any. */
  function FindByEmail(users: Store, email: string): (r: Option<User>)
    requires WellFormed(users)
    ensures r.None? <==> !EmailTaken(users, email)
    ensures r.Some? ==> r.value.id in users && users[r.value.id] == r.value && r.value.email == email
  {
    if exists id :: id in users && users[id].email == email then
      var id :| id in users && users[id].email == email;
      Some(users[id])
    else
      None
  }

  /** The holder of a name is the one user of the store with that name. */
  lemma FindByNameIsHolder(users: Store, id: string)
    requires WellFormed(users)
    requires id in users
    ensures FindByName(users, users[id].userName) == Some(users[id])
  {
  }

  /** `CheckPasswordAsync` after `FindByNameAsync` succeeds exactly for the credentials of a stored user. */
  lemma FindThenCheckIsAuthenticates(users: Store, name: string, password: string)
    requires WellFormed(users)
    ensures (FindByName(users, name).Some? && FindByName(users, name).value.password == password)
            <==> Authenticates(users, name, password)
  {
  }
}
