/**
 * The building blocks of the form schemas (Zod and Yup): the values a form
 * hands over, and the checks the schemas apply to one field.
 */
module Validation {
  import opened Wrappers
  import opened Sequences

  /** A number as a numeric input hands it over: `NaN` for an empty or unreadable input, otherwise its value. */
  datatype Number = NaN | Finite(value: real)

  /** The value is a number: present and not `NaN`. */
  predicate IsNumber(v: Option<Number>) {
    v.Some? && v.value.Finite?
  }

  predicate IsWhole(x: real) {
    x.Floor as real == x
  }

  /** A present number that is at least `least`, optionally also whole. */
  predicate NumberAtLeast(v: Option<Number>, least: real, whole: bool) {
    IsNumber(v) && v.value.value >= least && (whole ==> IsWhole(v.value.value))
  }

  /** An optional number: absent, or a number (whole when asked). `NaN` is neither. */
  predicate OptionalNumber(v: Option<Number>, whole: bool) {
    v.None? || (IsNumber(v) && (whole ==> IsWhole(v.value.value)))
  }

  /** A present text of at least `least` characters. */
  predicate LongEnough(v: Option<string>, least: nat) {
    v.Some? && |v.value| >= least
  }

  /** Yup's `required()` on a string: present and not empty. */
  predicate Required(v: Option<string>) {
    v.Some? && v.value != ""
  }

  /** Yup's `email()`: an absent or empty text passes; any other text must match the address pattern. */
  predicate YupEmail(v: Option<string>, isEmail: string -> bool) {
    v.None? || v.value == "" || isEmail(v.value)
  }

  /** Yup's `url()`: an absent or empty text passes; any other text must match the URL pattern. */
  predicate YupUrl(v: Option<string>, isUrl: string -> bool) {
    v.None? || v.value == "" || isUrl(v.value)
  }

  /** A present text that is one of `names`. */
  predicate OneOf(v: Option<string>, names: seq<string>) {
    v.Some? && v.value in names
  }

  /** The format checks the schema libraries supply, whose exact patterns are not part of this model. */
  datatype Formats = Formats(isEmail: string -> bool, isUrl: string -> bool, isUuid: string -> bool)

  /** The test that a rule does not hold. */
  function Negate<F>(holds: F -> bool): F -> bool {
    (f: F) => !holds(f)
  }

  /** The rules of `order` that do not hold, in schema order. */
  function Failing<F(!new)>(order: seq<F>, holds: F -> bool): (r: seq<F>)
    ensures forall f :: f in r <==> f in order && !holds(f)
    ensures Subsequence(r, order)
  {
    FilterMembers(order, Negate(holds));
    FilterSubsequence(order, Negate(holds));
    Filter(order, Negate(holds))
  }

  /** Each failing rule is reported as often as `order` lists it, and a holding one never. */
  lemma FailingCounts<F(!new)>(order: seq<F>, holds: F -> bool)
    ensures forall f :: multiset(Failing(order, holds))[f] == if holds(f) then 0 else multiset(order)[f]
  {
    FilterMultiset(order, Negate(holds));
  }
}
