/** The new realtor agent form and its Yup schema. */
module RealtorAgentForm {
  import opened Wrappers
  import opened Validation

  /** The form's values; `None` is a field left unset. */
  datatype AgentForm = AgentForm(
    agentId: Option<string>, name: Option<string>, contactNumber: Option<string>,
    email: Option<string>, agency: Option<string>, licenseNumber: Option<string>)

  datatype Field = AgentId | Name | ContactNumber | Email | Agency | LicenseNumber

  const SchemaOrder: seq<Field> := [AgentId, Name, ContactNumber, Email, Agency, LicenseNumber]

  function Position(f: Field): (i: nat)
    ensures i < |SchemaOrder| && SchemaOrder[i] == f
  {
    match f
    case AgentId => 0 case Name => 1 case ContactNumber => 2 case Email => 3 case Agency => 4 case LicenseNumber => 5
  }

  /** The rule of one field. */
  predicate FieldOk(a: AgentForm, isEmail: string -> bool, f: Field) {
    match f
    case AgentId => Required(a.agentId) && |a.agentId.value| >= 3
    case Name => Required(a.name) && |a.name.value| >= 3
    case ContactNumber => Required(a.contactNumber) && |a.contactNumber.value| <= 10 && |a.contactNumber.value| >= 10
    case Email => YupEmail(a.email, isEmail) && Required(a.email)
    case Agency => Required(a.agency)
    case LicenseNumber => Required(a.licenseNumber)
  }

  predicate Valid(a: AgentForm, isEmail: string -> bool) {
    forall f: Field :: FieldOk(a, isEmail, f)
  }

  /** The fields that fail their rule, in schema order. */
  function Issues(a: AgentForm, isEmail: string -> bool): (issues: seq<Field>)
    ensures forall f :: f in issues <==> !FieldOk(a, isEmail, f)
  {
    var r := Failing(SchemaOrder, (f: Field) => FieldOk(a, isEmail, f));
    assert forall f: Field :: f in SchemaOrder by {
      forall f: Field ensures f in SchemaOrder {
        var i := Position(f);
      }
    }
    r
  }

  /** `validationSchema.validate(values, { abortEarly: false })`: the values, or every failing field. */
  function Validate(a: AgentForm, isEmail: string -> bool): (r: Result<AgentForm, seq<Field>>)
    ensures r.Success? <==> Valid(a, isEmail)
    ensures r.Success? ==> r.value == a
    ensures r.Failure? ==> r.error == Issues(a, isEmail) && |r.error| > 0
  {
    var issues := Issues(a, isEmail);
    if |issues| == 0 then Success(a)
    else
      assert issues[0] in issues;
      Failure(issues)
  }

  /** The contact number rule demands exactly ten characters. */
  lemma ContactNumberIsTenLong(a: AgentForm, isEmail: string -> bool)
    ensures FieldOk(a, isEmail, ContactNumber) <==> a.contactNumber.Some? && |a.contactNumber.value| == 10
  {
  }

  /** The email test lets the empty text through; `required` is what rejects it. */
  lemma EmailNeedsAnAddress(a: AgentForm, isEmail: string -> bool)
    ensures FieldOk(a, isEmail, Email) <==> a.email.Some? && a.email.value != "" && isEmail(a.email.value)
  {
  }

  /** A form left untouched fails on every field. */
  lemma UntouchedFormFailsEverywhere(isEmail: string -> bool)
    ensures Issues(AgentForm(None, None, None, None, None, None), isEmail) == SchemaOrder
  {
    var a := AgentForm(None, None, None, None, None, None);
    var holds := (f: Field) => FieldOk(a, isEmail, f);
    var fails := Negate(holds);
    assert Sequences.Filter([LicenseNumber], fails) == [LicenseNumber];
    assert Sequences.Filter([Agency, LicenseNumber], fails) == [Agency, LicenseNumber];
    assert Sequences.Filter([Email, Agency, LicenseNumber], fails) == [Email, Agency, LicenseNumber];
    assert Sequences.Filter([ContactNumber, Email, Agency, LicenseNumber], fails) == [ContactNumber, Email, Agency, LicenseNumber];
    assert Sequences.Filter([Name, ContactNumber, Email, Agency, LicenseNumber], fails) == [Name, ContactNumber, Email, Agency, LicenseNumber];
    assert Sequences.Filter(SchemaOrder, fails) == SchemaOrder;
  }
}
