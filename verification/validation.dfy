/** Laravel's request validation, reduced to the rules the controllers use:
  * `required`, `sometimes`, `nullable`, `string` with `min`/`max` lengths,
  * `integer`, `numeric` with `min`, `date` and `boolean`. */
module Validation {
  import opened Values
  import Text

  /** The type rule of one attribute and its bounds. */
  datatype Kind =
    | Str(minLen: nat, maxLen: Option<nat>)   // string|min:a|max:b (character counts)
    | Integer                                 // integer
    | Numeric(min: Option<real>)              // numeric|min:m (the value itself)
    | Date                                    // date
    | Boolean                                 // boolean

  /** `required`, `sometimes` (skip the attribute when its key is absent) or neither. */
  datatype Presence = Required | Sometimes | Optional

  /** The rule string of one attribute, e.g. 'nullable|numeric|min:0'. */
  datatype Rule = Rule(field: string, presence: Presence, nullable: bool, kind: Kind)

  /** What `required` rejects: null and strings that trim to nothing. */
  predicate IsEmpty(v: Value)
  {
    v == VNull || (v.VStr? && Text.PhpTrim(v.s) == "")
  }

  predicate KindOk(k: Kind, v: Value)
  {
    match k
    case Str(lo, hi) => v.VStr? && lo <= |v.s| && (hi.Some? ==> |v.s| <= hi.value)
    case Integer => v.VInt?
    case Numeric(m) => (v.VInt? || v.VNum?) && (m.Some? ==> NumOf(v) >= m.value)
    case Date => v.VDate?
    case Boolean => v.VBool? || v == VInt(0) || v == VInt(1) || v == VStr("0") || v == VStr("1")
  }

  /** Whether Laravel runs the type rule at all: non-implicit rules are skipped
    * for an absent key, for a blank string, and for null under `nullable`. */
  predicate TypeRuleApplies(r: Rule, input: Request)
  {
    var v := Get(input, r.field);
    r.field in input && !(v.VStr? && Text.PhpTrim(v.s) == "") && !(r.nullable && v == VNull)
  }

  /** An attribute that was actually supplied: present, not null, not blank. */
  predicate Supplied(input: Request, field: string)
  {
    field in input && input[field] != VNull && !(input[field].VStr? && Text.PhpTrim(input[field].s) == "")
  }

  /** A quantity attribute, when supplied, holds a number no smaller than 0. */
  predicate NonNegativeWhenSupplied(input: Request, field: string)
  {
    Supplied(input, field) ==> IsNumber(input[field]) && NumOf(input[field]) >= 0.0
  }

  predicate Passes(r: Rule, input: Request)
  {
    if r.presence == Sometimes && r.field !in input then true
    else
      (r.presence == Required ==> !IsEmpty(Get(input, r.field))) &&
      (TypeRuleApplies(r, input) ==> KindOk(r.kind, Get(input, r.field)))
  }

  function Fields(rules: seq<Rule>): set<string>
  {
    set r | r in rules :: r.field
  }

  /** `$request->validate($rules)`: None when a rule fails (a ValidationException),
    * otherwise the validated data, i.e. the input restricted to the keys that
    * have a rule and are present. */
  function Validate(rules: seq<Rule>, input: Request): (r: Option<Row>)
    ensures r.Some? <==> forall i :: 0 <= i < |rules| ==> Passes(rules[i], input)
    ensures r.Some? ==> r.value.Keys == input.Keys * Fields(rules)
    ensures r.Some? ==> forall k :: k in r.value ==> r.value[k] == input[k]
  {
    if forall i :: 0 <= i < |rules| ==> Passes(rules[i], input) then
      Some(map k | k in input.Keys * Fields(rules) :: input[k])
    else
      None
  }

  /** An input whose every key has a rule and which passes every rule is
    * accepted as it is. */
  lemma AcceptedAsIs(rules: seq<Rule>, input: Request)
    requires forall i :: 0 <= i < |rules| ==> Passes(rules[i], input)
    requires input.Keys <= Fields(rules)
    ensures Validate(rules, input) == Some(input)
  {
    var v := Validate(rules, input);
    assert v.Some?;
    assert v.value.Keys == input.Keys * Fields(rules) == input.Keys;
    assert v.value == input;
  }

  /** A successful validation has every required attribute, non-empty. */
  lemma RequiredPresent(rules: seq<Rule>, input: Request, r: Rule)
    requires r in rules && r.presence == Required
    requires Validate(rules, input).Some?
    ensures r.field in Validate(rules, input).value
    ensures !IsEmpty(Validate(rules, input).value[r.field])
  {
    var i :| 0 <= i < |rules| && rules[i] == r;
    assert Passes(rules[i], input);
  }

  /** A successful validation leaves every supplied, non-blank, non-null-under-nullable
    * attribute of the right type and within its bounds. */
  lemma KindHolds(rules: seq<Rule>, input: Request, r: Rule)
    requires r in rules && Validate(rules, input).Some?
    requires TypeRuleApplies(r, input)
    ensures KindOk(r.kind, Validate(rules, input).value[r.field])
  {
    var i :| 0 <= i < |rules| && rules[i] == r;
    assert Passes(rules[i], input);
  }

  /** A missing required attribute makes the whole validation fail. */
  lemma MissingRequiredFails(rules: seq<Rule>, input: Request, r: Rule)
    requires r in rules && r.presence == Required
    requires IsEmpty(Get(input, r.field))
    ensures Validate(rules, input).None?
  {
    var i :| 0 <= i < |rules| && rules[i] == r;
    assert !Passes(rules[i], input);
  }

  /** A supplied attribute outside its type or bounds makes the validation fail. */
  lemma BadKindFails(rules: seq<Rule>, input: Request, r: Rule)
    requires r in rules && TypeRuleApplies(r, input)
    requires !KindOk(r.kind, Get(input, r.field))
    ensures Validate(rules, input).None?
  {
    var i :| 0 <= i < |rules| && rules[i] == r;
    assert !Passes(rules[i], input);
  }

  /** Validation looks at each attribute through its own rules only: changing
    * one attribute to a value its rules accept keeps a passing input passing. */
  lemma StillPasses(rules: seq<Rule>, input: Request, f: string, v: Value)
    requires Validate(rules, input).Some?
    requires forall i :: 0 <= i < |rules| && rules[i].field == f ==> Passes(rules[i], input[f := v])
    ensures Validate(rules, input[f := v]).Some?
  {
    forall i | 0 <= i < |rules| ensures Passes(rules[i], input[f := v]) {
      if rules[i].field != f {
        assert Passes(rules[i], input);
        assert Get(input[f := v], rules[i].field) == Get(input, rules[i].field);
      }
    }
  }

  /** An attribute with a rule reaches the validated data exactly as supplied
    * (or stays absent when it was absent). */
  lemma RuledKept(rules: seq<Rule>, input: Request, r: Rule)
    requires r in rules && Validate(rules, input).Some?
    ensures Get(Validate(rules, input).value, r.field) == Get(input, r.field)
  {
    assert r.field in Fields(rules);
  }

  /** Attributes without a rule never reach the validated data. */
  lemma UnruledDropped(rules: seq<Rule>, input: Request, k: string)
    requires forall i :: 0 <= i < |rules| ==> rules[i].field != k
    ensures Validate(rules, input).Some? ==> k !in Validate(rules, input).value
  {
  }
}
