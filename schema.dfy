/**
  The client-side form validation of client/src/schema/index.ts: two zod object
  schemas made of string-length rules. A form is the map from field names to the
  strings the user typed; a field that is not in the map is "undefined" for zod.
*/
module Schema {

  import opened Optional

  datatype Field = Username | Password | ConfirmPassword | Email | FirstName | LastName | Phone

  /** One `z.string().min(..).max(..)` (or `z.email().min(..)`) rule. */
  datatype Rule = Rule(min: nat, max: Option<nat>, email: bool)

  /** What zod reports, in the order its checks run. */
  datatype Issue =
    | Required(field: Field)
    | InvalidEmail(field: Field)
    | TooSmall(field: Field, minimum: nat)
    | TooBig(field: Field, maximum: nat)

  type Form = map<Field, string>

  /** An object schema: its fields with their rules, in declaration order. */
  type Shape = seq<(Field, Rule)>

  const Credential: Rule := Rule(5, Some(50), false)

  const LoginShape: Shape := [(Username, Credential), (Password, Credential)]

  const RegisterShape: Shape :=
    [ (Username, Credential),
      (Password, Credential),
      (ConfirmPassword, Credential),
      (Email, Rule(5, None, true)),
      (FirstName, Rule(2, None, false)),
      (LastName, Rule(2, None, false)),
      (Phone, Rule(5, Some(13), false)) ]

  /** Whether a present value passes every check of its rule; `isEmail` is zod's address format test. */
  predicate Fits(value: string, rule: Rule, isEmail: string -> bool)
  {
    && (rule.email ==> isEmail(value))
    && rule.min <= |value|
    && (rule.max.Some? ==> |value| <= rule.max.value)
  }

  /** Whether the form passes every rule of the shape. */
  predicate Accepts(shape: Shape, form: Form, isEmail: string -> bool)
  {
    forall k :: 0 <= k < |shape| ==> shape[k].0 in form && Fits(form[shape[k].0], shape[k].1, isEmail)
  }

  /** The issues zod reports for one field: a missing value stops at "Required"; otherwise every failing check. */
  function FieldIssues(field: Field, rule: Rule, form: Form, isEmail: string -> bool): (r: seq<Issue>)
    ensures r == [] <==> field in form && Fits(form[field], rule, isEmail)
    ensures forall k :: 0 <= k < |r| ==> r[k].field == field
  {
    if field !in form then [Required(field)]
    else
      var v := form[field];
      (if rule.email && !isEmail(v) then [InvalidEmail(field)] else [])
      + (if |v| < rule.min then [TooSmall(field, rule.min)] else [])
      + (if rule.max.Some? && |v| > rule.max.value then [TooBig(field, rule.max.value)] else [])
  }

  /** The issues of a whole object, field after field. */
  function Issues(shape: Shape, form: Form, isEmail: string -> bool): (r: seq<Issue>)
    ensures r == [] <==> Accepts(shape, form, isEmail)
    ensures forall k :: 0 <= k < |r| ==> exists j :: 0 <= j < |shape| && r[k].field == shape[j].0
  {
    if shape == [] then []
    else
      var head := FieldIssues(shape[0].0, shape[0].1, form, isEmail);
      var tail := Issues(shape[1..], form, isEmail);
      assert Accepts(shape, form, isEmail) <==> head == [] && Accepts(shape[1..], form, isEmail) by {
        if head == [] && Accepts(shape[1..], form, isEmail) {
          forall k | 0 <= k < |shape|
            ensures shape[k].0 in form && Fits(form[shape[k].0], shape[k].1, isEmail)
          {
            if k > 0 { assert shape[k] == shape[1..][k - 1]; }
          }
        }
      }
      forall k | 0 <= k < |tail|
        ensures exists j :: 0 <= j < |shape| && tail[k].field == shape[j].0
      {
        var j :| 0 <= j < |shape[1..]| && tail[k].field == shape[1..][j].0;
        assert shape[j + 1] == shape[1..][j];
      }
      head + tail
  }

  /** `loginSchema`, with its bounds written out. */
  predicate LoginValid(form: Form)
  {
    && Username in form && 5 <= |form[Username]| <= 50
    && Password in form && 5 <= |form[Password]| <= 50
  }

  /** `registerSchema`, with its bounds written out. */
  predicate RegisterValid(form: Form, isEmail: string -> bool)
  {
    && Username in form && 5 <= |form[Username]| <= 50
    && Password in form && 5 <= |form[Password]| <= 50
    && ConfirmPassword in form && 5 <= |form[ConfirmPassword]| <= 50
    && Email in form && isEmail(form[Email]) && 5 <= |form[Email]|
    && FirstName in form && 2 <= |form[FirstName]|
    && LastName in form && 2 <= |form[LastName]|
    && Phone in form && 5 <= |form[Phone]| <= 13
  }

  /** loginSchema accepts exactly the forms whose username and password have 5 to 50 characters. */
  lemma LoginAcceptsIff(form: Form, isEmail: string -> bool)
    ensures Issues(LoginShape, form, isEmail) == [] <==> LoginValid(form)
  {
    var s := LoginShape;
    if LoginValid(form) {
      forall k | 0 <= k < |s|
        ensures s[k].0 in form && Fits(form[s[k].0], s[k].1, isEmail)
      {
      }
    }
  }

  /** registerSchema accepts exactly the forms meeting the seven bounds; no rule relates two fields. */
  lemma RegisterAcceptsIff(form: Form, isEmail: string -> bool)
    ensures Issues(RegisterShape, form, isEmail) == [] <==> RegisterValid(form, isEmail)
  {
    var s := RegisterShape;
    if Accepts(s, form, isEmail) {
      assert s[0].0 in form && Fits(form[s[0].0], s[0].1, isEmail);
      assert s[1].0 in form && Fits(form[s[1].0], s[1].1, isEmail);
      assert s[2].0 in form && Fits(form[s[2].0], s[2].1, isEmail);
      assert s[3].0 in form && Fits(form[s[3].0], s[3].1, isEmail);
      assert s[4].0 in form && Fits(form[s[4].0], s[4].1, isEmail);
      assert s[5].0 in form && Fits(form[s[5].0], s[5].1, isEmail);
      assert s[6].0 in form && Fits(form[s[6].0], s[6].1, isEmail);
    }
    if RegisterValid(form, isEmail) {
      forall k | 0 <= k < |s|
        ensures s[k].0 in form && Fits(form[s[k].0], s[k].1, isEmail)
      {
      }
    }
  }

  /** Every username/password pair that registerSchema accepts, loginSchema accepts too. */
  lemma RegisterImpliesLogin(form: Form, isEmail: string -> bool)
    requires Issues(RegisterShape, form, isEmail) == []
    ensures Issues(LoginShape, form, isEmail) == []
  {
    RegisterAcceptsIff(form, isEmail);
    LoginAcceptsIff(form, isEmail);
  }

  /** confirmPassword is checked only for its length: any admissible value, equal to the password or not, keeps the form accepted. */
  lemma ConfirmPasswordUnchecked(form: Form, isEmail: string -> bool, confirm: string)
    requires Issues(RegisterShape, form, isEmail) == []
    requires 5 <= |confirm| <= 50
    ensures Issues(RegisterShape, form[ConfirmPassword := confirm], isEmail) == []
  {
    RegisterAcceptsIff(form, isEmail);
    RegisterAcceptsIff(form[ConfirmPassword := confirm], isEmail);
  }

  /** A sample registration whose confirmation is mistyped. */
  function SampleRegistration(): (form: Form)
    ensures Password in form && ConfirmPassword in form && form[Password] != form[ConfirmPassword]
  {
    var pw, confirm := "secret123", "secret124";
    assert pw[8] != confirm[8];
    map[Username := "cvsu08", Password := pw, ConfirmPassword := confirm,
        Email := "ana@b.com", FirstName := "Ana", LastName := "Cruz", Phone := "09171234567"]
  }

  lemma SampleRegistrationValid(isEmail: string -> bool)
    requires isEmail("ana@b.com")
    ensures RegisterValid(SampleRegistration(), isEmail)
  {
    var form := SampleRegistration();
    assert form[Username] == "cvsu08" && form[Password] == "secret123" && form[ConfirmPassword] == "secret124";
    assert form[Email] == "ana@b.com" && form[FirstName] == "Ana" && form[LastName] == "Cruz";
    assert form[Phone] == "09171234567";
  }

  /** A concrete registration whose confirmation differs from its password is accepted. */
  lemma MismatchedConfirmationAccepted(isEmail: string -> bool)
    requires isEmail("ana@b.com")
    ensures exists form: Form ::
      && Password in form && ConfirmPassword in form
      && form[Password] != form[ConfirmPassword]
      && Issues(RegisterShape, form, isEmail) == []
  {
    var form := SampleRegistration();
    SampleRegistrationValid(isEmail);
    RegisterAcceptsIff(form, isEmail);
  }
}
