/** The new user form and its Zod `userSchema`. */
module UserForm {
  import opened Wrappers
  import opened Validation

  /** The form's values; `None` is a field left unset. */
  datatype UserInput = UserInput(name: Option<string>, email: Option<string>, password: Option<string>, role: Option<string>)

  const Roles: seq<string> := ["USER", "AGENT"]
  const DefaultRole := "USER"

  datatype Field = Name | Email | Password | Role

  const SchemaOrder: seq<Field> := [Name, Email, Password, Role]

  function Position(f: Field): (i: nat)
    ensures i < |SchemaOrder| && SchemaOrder[i] == f
  {
    match f
    case Name => 0 case Email => 1 case Password => 2 case Role => 3
  }

  /** The rule of one field; the role has a default, so it may be absent. */
  predicate FieldOk(u: UserInput, isEmail: string -> bool, f: Field) {
    match f
    case Name => LongEnough(u.name, 1)
    case Email => u.email.Some? && isEmail(u.email.value)
    case Password => LongEnough(u.password, 6)
    case Role => u.role.None? || OneOf(u.role, Roles)
  }

  predicate Valid(u: UserInput, isEmail: string -> bool) {
    forall f: Field :: FieldOk(u, isEmail, f)
  }

  /** The fields that fail their rule, in schema order. */
  function Issues(u: UserInput, isEmail: string -> bool): (issues: seq<Field>)
    ensures forall f :: f in issues <==> !FieldOk(u, isEmail, f)
  {
    var r := Failing(SchemaOrder, (f: Field) => FieldOk(u, isEmail, f));
    assert forall f: Field :: f in SchemaOrder by {
      forall f: Field ensures f in SchemaOrder {
        var i := Position(f);
      }
    }
    r
  }

  /** `userSchema.safeParse`: the values with the default role when every rule holds, the failing fields otherwise. */
  function SafeParse(u: UserInput, isEmail: string -> bool): (r: Result<UserInput, seq<Field>>)
    ensures r.Success? <==> Valid(u, isEmail)
    ensures r.Success? ==> r.value == u.(role := Some(u.role.GetOr(DefaultRole)))
    ensures r.Failure? ==> r.error == Issues(u, isEmail) && |r.error| > 0
  {
    var issues := Issues(u, isEmail);
    if |issues| == 0 then Success(u.(role := Some(u.role.GetOr(DefaultRole))))
    else
      assert issues[0] in issues;
      Failure(issues)
  }

  /** A parsed user always has a role, USER or AGENT, and parses again to itself. */
  lemma ParsedUserHasRole(u: UserInput, isEmail: string -> bool)
    requires SafeParse(u, isEmail).Success?
    ensures var v := SafeParse(u, isEmail).value;
      v.role.Some? && v.role.value in Roles && SafeParse(v, isEmail) == Success(v)
  {
    var v := SafeParse(u, isEmail).value;
    assert Roles[0] == DefaultRole;
    forall f: Field ensures FieldOk(v, isEmail, f) {
      assert FieldOk(u, isEmail, f);
    }
  }

  /** The form's `defaultValues`. */
  const DefaultValues := UserInput(None, None, None, Some(DefaultRole))

  /** Submitting the defaults alone fails on the name, the email and the password, and not on the role. */
  lemma DefaultValuesIssues(isEmail: string -> bool)
    ensures Issues(DefaultValues, isEmail) == [Name, Email, Password]
  {
    var holds := (f: Field) => FieldOk(DefaultValues, isEmail, f);
    var fails := Negate(holds);
    assert Roles[0] == DefaultRole;
    assert Sequences.Filter([Role], fails) == [];
    assert Sequences.Filter([Password, Role], fails) == [Password];
    assert Sequences.Filter([Email, Password, Role], fails) == [Email, Password];
    assert Sequences.Filter(SchemaOrder, fails) == [Name, Email, Password];
  }
}
