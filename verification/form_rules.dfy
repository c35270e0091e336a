/** The part of yup the client's form schemas use, and the two helpers every
  * form shares: the `||` fallbacks of an edit reset and the submitted
  * payload. */
module FormRules {
  import opened JsValues

  /** The base type of a yup field. */
  datatype Kind = NumberField | StringField | DateField

  /** One field of a `yup.object`: its base type, `.nullable()`,
    * `.required()`, `.positive()`, `.min(…)` and `.max(…)`. */
  datatype Field = Field(kind: Kind, nullable: bool, required: bool, positive: bool, min: Option<real>, max: Option<real>)

  /** `yup.number()`, `yup.string()` and `yup.date()` with no further rule. */
  const NumberRule := Field(NumberField, false, false, false, None, None)
  const StringRule := Field(StringField, false, false, false, None, None)
  const DateRule := Field(DateField, false, false, false, None, None)

  /** Whether a value passes one field. An absent value passes unless the
    * field is required; null passes only a nullable field that is not
    * required; a required string must not be empty; the bounds apply to
    * numbers only. */
  predicate Passes(v: Js, f: Field)
  {
    match v
    case Undefined => !f.required
    case Null => f.nullable && !f.required
    case Num(n) =>
      f.kind == NumberField && (f.positive ==> n > 0.0) &&
      (f.min.Some? ==> n >= f.min.value) && (f.max.Some? ==> n <= f.max.value)
    case Str(s) => f.kind == StringField && (f.required ==> s != "")
    case Date(_) => f.kind == DateField
    case Bool(_) => false
  }

  /** A `yup.object` schema: field names with their rules. */
  type Schema = seq<(string, Field)>

  /** Every field of the schema passes. */
  predicate SchemaPasses(values: Obj, schema: Schema)
  {
    forall i :: 0 <= i < |schema| ==> Passes(Prop(values, schema[i].0), schema[i].1)
  }

  /** A required field passes only with a value that is set, and a required
    * string only when it is not empty. */
  lemma RequiredMeansSet(v: Js, f: Field)
    requires f.required && Passes(v, f)
    ensures !Nullish(v)
    ensures f.kind == StringField ==> v.Str? && v.s != ""
  {
  }

  /** `x || fallback` of an edit reset: a truthy value is copied, a falsy one
    * (0, '', null, missing) becomes the fallback. */
  predicate CopiedOr(r: Obj, source: Obj, k: string, fallback: Js)
  {
    k in r && r[k] == (if Truthy(Prop(source, k)) then Prop(source, k) else fallback)
  }

  /** The payload of `handleFormSubmit`: the form data alone when creating,
    * and `{ ...data, oid: edited.oid }` when editing. */
  function SubmitPayload(data: Obj, editing: Option<Obj>): (r: Obj)
    ensures editing.None? ==> r == data
    ensures editing.Some? ==> r.Keys == data.Keys + {"oid"} && r["oid"] == OidOf(editing.value)
    ensures forall k :: k in data && k != "oid" ==> k in r && r[k] == data[k]
  {
    if editing.None? then data else data["oid" := OidOf(editing.value)]
  }
}
