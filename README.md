# ScheduleApp account core in Dafny

This project models the account actions of ScheduleApp's ASP.NET controller
(`AccountController`) and the client's zod form schemas, and proves what they promise.

The controller is modelled as a state machine over the identity framework's user store.
The store is a map from user id to user record (`ApplicationUser`: id, user name, email,
first and last name, phone, password, and the framework's confirmation and lockout fields).
The framework calls become plain operations:

- `FindByNameAsync` and `FindByEmailAsync` are map lookups (`Identity.FindByName`, `Identity.FindByEmail`).
- `CheckPasswordAsync` is equality with the stored password.
- The verdicts of `CreateAsync`, `UpdateAsync` and of the new-password policy in `ChangePasswordAsync` are `IdentityResult` parameters.

Each action returns a `Response`: a status (Ok, BadRequest, Unauthorized, NotFound,
InternalServerError) and a body with the controller's exact messages.

Files:

- `optional.dfy`: the `Option` type.
- `schema.dfy`: `loginSchema` and `registerSchema` as data, the issues zod reports, and the acceptance lemmas.
- `identity.dfy`: the records, the request models, the store invariant and the lookups.
- `tokens.dfy`: the login claims, `FindFirst` on a claim list, and the expiry setting with its parse.
- `account.dfy`: one step function per state-changing action, and the `AccountController` class.
- `account_properties.dfy`: lemmas relating the actions.

Each state-changing action (`Register`, `ChangePassword`, `UpdateProfile`) has two parts:

- A pure step function from the old store to the response and the new store.
- A method of `AccountController` that changes the `users` field step by step. `UpdateProfile` changes the fetched user field by field before saving it. Each method is proved to agree with its step function.

`Login` changes nothing and is a function of the controller. `GetAllUsers` is a read-only
method; its helper `ListUsers` loops over the stored ids. The store invariant `WellFormed` says three things:

- each user is filed under its own id;
- user names are unique;
- emails are unique.

Every action preserves it.

The two protected actions look the caller up in a particular way, and the model keeps it.
They read the `NameIdentifier` claim of the request and pass its value to `FindByNameAsync`
(AccountController.cs:166,174 and :201,206). `Login` puts the user's *id* in that claim
(AccountController.cs:87). `AccountProperties.LoginTokenCallerLookup` proves what follows
if the request carries exactly the claims of a login token: both actions answer NotFound
unless some user's name equals the caller's id. The request's claims are an input of the
model. The JWT bearer middleware's inbound claim-type mapping is not part of this model;
that mapping may also turn "sub" into a `NameIdentifier` claim.

## Model

| member | source | states |
|---|---|---|
| Schema.FieldIssues | client/src/schema/index.ts:4-15 | one field's issues are empty exactly when the field is present, within its length bounds and (for the email rule) well-formed; every issue names that field |
| Schema.Issues | client/src/schema/index.ts:3-16 | an object schema reports no issue exactly when every field of the shape is present and fits its rule; every issue names a field of the shape |
| Schema.LoginAcceptsIff | client/src/schema/index.ts:3-6 | loginSchema accepts a form iff username and password are present with 5 to 50 characters each |
| Schema.RegisterAcceptsIff | client/src/schema/index.ts:8-16 | registerSchema accepts a form iff username, password and confirmPassword have 5-50 characters, email is well-formed with at least 5, first and last name at least 2, phone 5-13 |
| Schema.RegisterImpliesLogin | client/src/schema/index.ts:3-11 | every form registerSchema accepts, loginSchema accepts |
| Schema.ConfirmPasswordUnchecked | client/src/schema/index.ts:8-16 | replacing confirmPassword by any 5-50 character string keeps an accepted form accepted: no cross-field rule |
| Schema.MismatchedConfirmationAccepted | client/src/schema/index.ts:9-11 | some accepted registration has a confirmPassword different from its password |
| Identity.FindByName | ScheduleApp/Controllers/AccountController.cs:47 | finds nothing iff no stored user has the name; otherwise a stored user with exactly that name |
| Identity.FindByEmail | ScheduleApp/Controllers/AccountController.cs:41 | finds nothing iff no stored user has the address; otherwise a stored user with exactly that address |
| Identity.FindByNameIsHolder | ScheduleApp/Controllers/AccountController.cs:79 | in a well-formed store the name lookup returns the one user holding the name |
| Identity.FindThenCheckIsAuthenticates | ScheduleApp/Controllers/AccountController.cs:79-81 | name lookup followed by the password check succeeds iff some stored user has exactly these credentials |
| Tokens.FindFirst | ScheduleApp/Controllers/AccountController.cs:166 | no value iff no claim has the type, compared ignoring letter case; otherwise the value of the first claim of that type |
| Tokens.FindFirstIgnoresCase | ScheduleApp/Controllers/AccountController.cs:201 | asking for a claim type in another letter case reads the same value |
| Tokens.FindFirstAt | ScheduleApp/Controllers/AccountController.cs:201 | the first claim of a type decides the value read back |
| Tokens.AuthClaims | ScheduleApp/Controllers/AccountController.cs:83-90 | the login claims in the controller's order: sub = user name, jti = the fresh id, NameIdentifier = user id, Name = user name, Email = address; AuthClaimTypesDistinct and AuthClaimsRead prove the types distinct and each value read back |
| Tokens.AuthClaimTypesDistinct | ScheduleApp/Controllers/AccountController.cs:83-90 | a login token has exactly five claims, of five distinct types |
| Tokens.AuthClaimsRead | ScheduleApp/Controllers/AccountController.cs:83-90 | reading back sub and Name gives the user name, jti the fresh id, NameIdentifier the user id, Email the address |
| Tokens.ParseHours | ScheduleApp/Controllers/AccountController.cs:93 | parses exactly the non-empty all-digit strings |
| Tokens.ParseShowRoundTrip | ScheduleApp/Controllers/AccountController.cs:93 | parsing the decimal numeral of n gives n |
| Tokens.ExpiryHours | ScheduleApp/Controllers/AccountController.cs:92-93 | 24 hours when the setting is missing or empty; otherwise a lifetime exactly when the setting is all digits, and n hours for the numeral of n |
| Tokens.ExpiresAt | ScheduleApp/Controllers/AccountController.cs:98 | the expiry is never before now, and strictly after it for a positive number of hours |
| Account.RegisterStep | ScheduleApp/Controllers/AccountController.cs:34-74 | registration keeps the store well-formed; every failure leaves it unchanged; success adds exactly the new id |
| Account.ChangePasswordStep | ScheduleApp/Controllers/AccountController.cs:159-192 | a password change keeps the store well-formed and its ids; failures change nothing; a store refusal of the new password is never Ok and changes nothing; at most one user's record changes, and only in its password |
| Account.UpdateProfileStep | ScheduleApp/Controllers/AccountController.cs:196-251 | a profile update keeps the store well-formed and its ids; failures change nothing; a store refusal to save is never Ok and changes nothing; ids, emails and passwords never change |
| Account.ListUsers | ScheduleApp/Controllers/AccountController.cs:129-142 | the list has one entry per stored user, each the projection of the user filed under its id, no id twice |
| Account.NewUser | ScheduleApp/Controllers/AccountController.cs:53-60 | the record handed to creation: the submitted name, email, first and last name, phone and password under the fresh id, unconfirmed, with no failed logins and the framework's lockout setting; RegisterCreates proves a successful registration stores those submitted fields under the fresh id |
| Account.LoginViewOf | ScheduleApp/Controllers/AccountController.cs:110-117 | the login response shows id, user name, email, first and last name; the type has no password field, and ViewsIgnorePassword proves it does not depend on the password |
| Account.ListItemOf | ScheduleApp/Controllers/AccountController.cs:131-141 | a list entry shows id, user name, email, names, phone, email confirmation, lockout flag and failed-login count; ListItemHidesOnlyPassword proves it hides the password and nothing else |
| Account.ProfileViewOf | ScheduleApp/Controllers/AccountController.cs:234-242 | the profile response shows id, user name, email, first and last name and phone, never the password (ViewsIgnorePassword) |
| Account.MergeProfile | ScheduleApp/Controllers/AccountController.cs:208-226 | the profile after the "ignore blank fields" rule: each filled field replaces the stored one, each null or empty one keeps it; MergeProfileFields and MergeProfileIdempotent prove this and idempotence |
| Account.AccountController.constructor | ScheduleApp/Controllers/AccountController.cs:21-31 | the controller starts over a well-formed store with the given settings |
| Account.AccountController.Register | ScheduleApp/Controllers/AccountController.cs:34-74 | the response and the new store are those of the registration step, and the store stays well-formed |
| Account.AccountController.Login | ScheduleApp/Controllers/AccountController.cs:77-121 | BadRequest with the one generic message iff the credentials match no user; Ok iff they do, the expiry setting parses and the secret key is present and non-empty; InternalServerError with an unhandled body when the credentials match but the expiry setting does not parse or the key is missing or empty; on Ok the token holds the login claims of that user, the configured issuer and audience, and expires the configured hours after now; the response shows the user without password |
| Account.AccountController.GetAllUsers | ScheduleApp/Controllers/AccountController.cs:125-155 | lists every stored user exactly once with its projection, and the count equals the number of users |
| Account.AccountController.ChangePassword | ScheduleApp/Controllers/AccountController.cs:159-192 | the response and the new store are those of the password-change step, and the store stays well-formed |
| Account.AccountController.UpdateProfile | ScheduleApp/Controllers/AccountController.cs:196-251 | the response and the new store are those of the profile-update step, and the store stays well-formed |
| AccountProperties.RegisterEmailFirst | ScheduleApp/Controllers/AccountController.cs:41-45 | an address already on file gives the email error, whatever the user name, and the store is unchanged |
| AccountProperties.RegisterNameTaken | ScheduleApp/Controllers/AccountController.cs:47-51 | a free address with a taken name gives the user-name error and the store is unchanged |
| AccountProperties.RegisterCreates | ScheduleApp/Controllers/AccountController.cs:53-73 | on success exactly one user is added, holding the submitted name, email, first and last name, phone and password, and no other user changes; on refusal the store's error descriptions are returned and nobody is added |
| AccountProperties.RegisteredUserAuthenticates | ScheduleApp/Controllers/AccountController.cs:53-66 | after a successful registration the registered credentials authenticate |
| AccountProperties.LoginFailuresAlike | ScheduleApp/Controllers/AccountController.cs:79-120 | an unknown user name and a wrong password produce the identical BadRequest |
| AccountProperties.LoginTokenClaims | ScheduleApp/Controllers/AccountController.cs:83-90 | a successful login's token carries five claims: sub and Name = user name, the fresh jti, NameIdentifier = user id, Email = address |
| AccountProperties.LoginExpiry | ScheduleApp/Controllers/AccountController.cs:92-98 | with no expiry setting the token expires 24 hours after now; with a numeral setting, that many hours after |
| AccountProperties.UnknownCallerNotFound | ScheduleApp/Controllers/AccountController.cs:174-177 | a NameIdentifier value that is no user's name makes ChangePassword and UpdateProfile answer NotFound and change nothing |
| AccountProperties.LoginTokenCallerLookup | ScheduleApp/Controllers/AccountController.cs:166-177 | given exactly a login token's claims, ChangePassword and UpdateProfile answer NotFound and change nothing unless some user is named like the caller's id |
| AccountProperties.MissingIdentifier | ScheduleApp/Controllers/AccountController.cs:166-204 | without a NameIdentifier claim ChangePassword answers Unauthorized and UpdateProfile NotFound, both changing nothing |
| AccountProperties.ChangePasswordWrongCurrent | ScheduleApp/Controllers/AccountController.cs:180-191 | a wrong current password gives BadRequest with the mismatch description and leaves the store unchanged |
| AccountProperties.ChangePasswordTakesEffect | ScheduleApp/Controllers/AccountController.cs:180-185 | after a successful change the store differs only in the caller's password; the new password authenticates the caller and a different old one does not |
| AccountProperties.ChangePasswordRefused | ScheduleApp/Controllers/AccountController.cs:180-191 | a right current password that the store refuses gives BadRequest with the store's error descriptions, and the store is unchanged |
| AccountProperties.MergeProfileFields | ScheduleApp/Controllers/AccountController.cs:210-226 | a null or empty field keeps the stored value, a filled one replaces it; id, email and password are untouched |
| AccountProperties.MergeProfileIdempotent | ScheduleApp/Controllers/AccountController.cs:219-226 | applying the same update twice equals applying it once |
| AccountProperties.ViewsIgnorePassword | ScheduleApp/Controllers/AccountController.cs:110-141 | the login view, the profile view and the list entry of a user are the same whatever its password |
| AccountProperties.ListItemHidesOnlyPassword | ScheduleApp/Controllers/AccountController.cs:131-141 | two users have the same list entry iff they differ at most in their password |
| AccountProperties.UpdateProfileCollision | ScheduleApp/Controllers/AccountController.cs:210-214 | a new user name already held gives BadRequest before any field changes; the store is unchanged |
| AccountProperties.UpdateProfileApplies | ScheduleApp/Controllers/AccountController.cs:216-243 | an accepted update stores the merged record under the caller's id only and answers with its projection |
| AccountProperties.UpdateProfileRefused | ScheduleApp/Controllers/AccountController.cs:228-250 | an update past the name check that the store refuses to save gives BadRequest with the store's error descriptions, and the store is unchanged |

## Left out

- JWT serialisation and HS256 signing (section 3.2 of RFC 7518) are library code. A token is the record of its issuer, audience, claims and expiry. Token verification and bearer extraction (RFC 6750) happen in middleware that is not part of this model, so the request's claims are an input.
- Password hashing is not modelled: the store keeps the password, and checking one is equality.
- The framework's user-name and email normalisation (case folding) is not modelled: lookups match exactly. With case folding, a rename that changes only letter case would find the caller itself and be refused.
- Lockout counters, password policy and user validators are outside the model. Their verdicts are the `IdentityResult` parameters.
- The fresh GUIDs are parameters: the new user's id (assumed not yet in the store) and the "jti" value.
- Tokens.ParseHours: accepts only non-empty strings of decimal digits. `double.Parse` also takes signs, decimal points, exponents, surrounding white space, group separators and culture-specific forms. Fractional and negative hours are therefore not modelled.
- Tokens.ExpiryHours: inherits that restriction. A setting outside it is treated as the parse exception.
- Tokens.FindFirst: ignores letter case only for the ASCII letters a-z. An ordinal case-insensitive comparison also folds non-ASCII letters; no claim type the controller asks for contains one.
- Tokens.ExpiresAt: time is whole seconds on one clock. Local versus UTC time, the token's truncation of expiry to whole seconds, and the exception `AddHours` throws past the largest date are not modelled.
- An exception escaping an action is an InternalServerError response with an `Unhandled` body.
- Account.AccountController.Login: a secret key counts as usable when it is present and non-empty. The signing library also throws for a key shorter than its minimum key size, at signing time, which is another 500; that length check is not modelled. Nor is an hour count that `AddHours` rejects as past the largest date (see Tokens.ExpiresAt): the source answers 500 there, the model Ok.
- `ModelState.IsValid` is decided by the framework's attribute validation, which is not part of this model. It is a boolean parameter of `Register`, `ChangePassword` and `UpdateProfile`, the three actions that check it (AccountController.cs:36, 161 and 198). `Login` and `GetAllUsers` do not check it.
- The `Login` request class is not part of this model's sources. It is taken to hold a user name and a password, as the login form does.
- Account.AccountController.GetAllUsers: the failure path that returns status 500 when the store cannot be read is not modelled. The order of the list is unspecified.
- Logout is a single framework sign-out call with no decision logic.
- The `_logger.LogInformation` calls of `ChangePassword` and `UpdateProfile` (AccountController.cs:172 and 202) are not modelled: logging changes no response and no stored state.
- The zod email format check is library behaviour and appears as the parameter `isEmail`. Only the length bounds are modelled.
- Schema.FieldIssues: counts a string's length in Unicode scalar values. JavaScript counts UTF-16 code units, so the two differ for characters outside the Basic Multilingual Plane.
- Schema.Issues: inherits that length count from `FieldIssues`. Zod's message texts are not modelled.
- Account.AccountController.UpdateProfile: the fetched user is a value copy. The aliasing of the framework's tracked entity is not modelled.
- Concurrent requests are not modelled. Each action runs alone against the store.
- The React pages, the HTTP client set-up, the database context and the token service interface hold no decision logic.
