/**
  What a successful login puts in its token (AccountController.cs, Login): a fixed
  list of claims, the configured issuer and audience, and an expiry a number of
  hours after the current time. The signature and the serialised form are not
  modelled; a token is the record of what it states.
*/
module Tokens {

  import opened Optional
  import opened Identity

  /** Registered claim names of RFC 7519: "sub" (section 4.1.2) and "jti" (section 4.1.7). */
  const SubClaim := "sub"
  const JtiClaim := "jti"

  /** The .NET claim types `ClaimTypes.NameIdentifier`, `ClaimTypes.Name` and `ClaimTypes.Email`. */
  const NameIdentifierClaim := "http://schemas.xmlsoap.org/ws/2005/05/identity/claims/nameidentifier"
  const NameClaim := "http://schemas.xmlsoap.org/ws/2005/05/identity/claims/name"
  const EmailClaim := "http://schemas.xmlsoap.org/ws/2005/05/identity/claims/emailaddress"

  /** Lifetime used when `JwtSettings:ExpirationInHours` is missing or empty. */
  const DefaultExpirationHours: nat := 24

  const SecondsPerHour: nat := 3600

  datatype Claim = Claim(claimType: string, value: string)

  /** `JwtSecurityToken` as far as the model goes; `expires` is in seconds on the clock `now` is read from. */
  datatype Token = Token(issuer: Option<string>, audience: Option<string>, claims: seq<Claim>, expires: int)

  /** The `JwtSettings` configuration section; every entry may be missing. */
  datatype JwtSettings = JwtSettings(
    issuer: Option<string>,
    audience: Option<string>,
    secretKey: Option<string>,
    expirationInHours: Option<string>)

  /** Folds the ASCII letters a-z to upper case; other characters are kept. */
  function UpperAscii(c: char): char
  {
    if 'a' <= c <= 'z' then (c as int - 32) as char else c
  }

  /** Claim types are compared ordinally, ignoring case (`StringComparison.OrdinalIgnoreCase`). */
  predicate SameClaimType(a: string, b: string)
  {
    |a| == |b| && forall i :: 0 <= i < |a| ==> UpperAscii(a[i]) == UpperAscii(b[i])
  }

  /** `ClaimsPrincipal.FindFirst`: the value of the first claim of the given type. */
  function FindFirst(claims: seq<Claim>, claimType: string): (r: Option<string>)
    ensures r.None? <==> forall i :: 0 <= i < |claims| ==> !SameClaimType(claims[i].claimType, claimType)
    ensures r.Some? ==> exists i :: 0 <= i < |claims| && claims[i].value == r.value
                                   && SameClaimType(claims[i].claimType, claimType)
                                   && forall j :: 0 <= j < i ==> !SameClaimType(claims[j].claimType, claimType)
  {
    if claims == [] then None
    else if SameClaimType(claims[0].claimType, claimType) then Some(claims[0].value)
    else
      var r := FindFirst(claims[1..], claimType);
      assert forall i :: 0 < i < |claims| ==> claims[i] == claims[1..][i - 1];
      r
  }

  /** The first claim of a type decides what `FindFirst` returns. */
  lemma FindFirstAt(claims: seq<Claim>, claimType: string, i: nat)
    requires i < |claims| && SameClaimType(claims[i].claimType, claimType)
    requires forall j :: 0 <= j < i ==> !SameClaimType(claims[j].claimType, claimType)
    ensures FindFirst(claims, claimType) == Some(claims[i].value)
  {
  }

  /** A claim type written in another letter case is found all the same. */
  lemma FindFirstIgnoresCase(claims: seq<Claim>, claimType: string, other: string)
    requires SameClaimType(claimType, other)
    ensures FindFirst(claims, claimType) == FindFirst(claims, other)
  {
  }

  /** The claims of a login for `user`, in the order the controller lists them. */
  function AuthClaims(user: User, tokenId: string): seq<Claim>
  {
    [ Claim(SubClaim, user.userName),
      Claim(JtiClaim, tokenId),
      Claim(NameIdentifierClaim, user.id),
      Claim(NameClaim, user.userName),
      Claim(EmailClaim, user.email) ]
  }

  /** A login token carries five claims, no two of one type. */
  lemma AuthClaimTypesDistinct(user: User, tokenId: string)
    ensures |AuthClaims(user, tokenId)| == 5
    ensures forall i, j :: 0 <= i < j < 5 ==>
      !SameClaimType(AuthClaims(user, tokenId)[i].claimType, AuthClaims(user, tokenId)[j].claimType)
  {
    assert UpperAscii(SubClaim[0]) != UpperAscii(JtiClaim[0]);
    assert |SubClaim| == |JtiClaim| == 3 && |NameClaim| == 58 && |EmailClaim| == 66 && |NameIdentifierClaim| == 68;
  }

  /** Reading each claim type of a login token back gives the user's field. */
  lemma AuthClaimsRead(user: User, tokenId: string)
    ensures FindFirst(AuthClaims(user, tokenId), SubClaim) == Some(user.userName)
    ensures FindFirst(AuthClaims(user, tokenId), JtiClaim) == Some(tokenId)
    ensures FindFirst(AuthClaims(user, tokenId), NameIdentifierClaim) == Some(user.id)
    ensures FindFirst(AuthClaims(user, tokenId), NameClaim) == Some(user.userName)
    ensures FindFirst(AuthClaims(user, tokenId), EmailClaim) == Some(user.email)
  {
    var claims := AuthClaims(user, tokenId);
    AuthClaimTypesDistinct(user, tokenId);
    FindFirstAt(claims, SubClaim, 0);
    FindFirstAt(claims, JtiClaim, 1);
    FindFirstAt(claims, NameIdentifierClaim, 2);
    FindFirstAt(claims, NameClaim, 3);
    FindFirstAt(claims, EmailClaim, 4);
  }

  predicate IsDigit(c: char)
  {
    '0' <= c <= '9'
  }

  function DigitValue(c: char): nat
    requires IsDigit(c)
  {
    c as int - '0' as int
  }

  function DigitChar(d: nat): char
    requires d < 10
  {
    ('0' as int + d) as char
  }

  /** Decimal value of a string of digits, most significant first. */
  function DigitsValue(s: string): nat
    requires forall i :: 0 <= i < |s| ==> IsDigit(s[i])
  {
    if s == [] then 0 else DigitsValue(s[..|s| - 1]) * 10 + DigitValue(s[|s| - 1])
  }

  /** Decimal numeral of a natural number, without leading zeros. */
  function ShowNat(n: nat): (s: string)
    ensures |s| >= 1 && forall i :: 0 <= i < |s| ==> IsDigit(s[i])
  {
    if n < 10 then [DigitChar(n)] else ShowNat(n / 10) + [DigitChar(n % 10)]
  }

  /**
    `double.Parse` of the setting, restricted to whole numbers: a non-empty string of
    decimal digits is a number of hours, anything else throws (None).
  */
  function ParseHours(s: string): (r: Option<nat>)
    ensures r.Some? <==> s != [] && forall i :: 0 <= i < |s| ==> IsDigit(s[i])
  {
    if s != [] && forall i :: 0 <= i < |s| ==> IsDigit(s[i]) then Some(DigitsValue(s)) else None
  }

  /** Printing a number and reading it back gives the number. */
  lemma {:induction false} ParseShowRoundTrip(n: nat)
    ensures ParseHours(ShowNat(n)) == Some(n)
  {
    ShowDigitsValue(n);
  }

  lemma {:induction false} ShowDigitsValue(n: nat)
    ensures DigitsValue(ShowNat(n)) == n
  {
    var s := ShowNat(n);
    if n >= 10 {
      ShowDigitsValue(n / 10);
      assert s[..|s| - 1] == ShowNat(n / 10);
    }
  }

  /**
    The lifetime the controller uses: the default when the setting is missing or
    empty, the parsed setting otherwise; None when parsing throws.
  */
  function ExpiryHours(setting: Option<string>): (r: Option<nat>)
    ensures setting.None? || setting == Some("") ==> r == Some(DefaultExpirationHours)
    ensures setting.Some? && setting.value != "" ==>
      (r.Some? <==> forall i :: 0 <= i < |setting.value| ==> IsDigit(setting.value[i]))
    ensures forall n: nat :: setting == Some(ShowNat(n)) ==> r == Some(n)
  {
    assert forall n: nat :: setting == Some(ShowNat(n)) ==> ParseHours(setting.value) == Some(n) by {
      forall n: nat | setting == Some(ShowNat(n))
        ensures ParseHours(setting.value) == Some(n)
      {
        ParseShowRoundTrip(n);
      }
    }
    if setting.None? || setting.value == "" then Some(DefaultExpirationHours) else ParseHours(setting.value)
  }

  /** `DateTime.Now.AddHours(hours)`. */
  function ExpiresAt(now: int, hours: nat): (t: int)
    ensures t >= now
    ensures hours > 0 ==> t > now
  {
    now + hours * SecondsPerHour
  }
}
