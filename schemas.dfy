/**
 * Declarative configuration models in the style of pydantic's `BaseModel`:
 * each model declares its fields with a type, a default (or none, for a
 * required field) and optional numeric bounds (`ge`/`le`), plus a policy for
 * keyword arguments it does not declare (`extra="allow"` keeps them, the
 * default `"ignore"` drops them). Validation collects one error per offending
 * field and otherwise yields the populated model; pydantic's separate errors
 * for the failing items inside a list or dictionary are one error here.
 */
module Schemas {
  import opened Values

  /** The field types the configuration models use. */
  datatype Kind =
    | StrK
    | BoolK
    | IntK
    | FloatK
    | ListK(elem: Kind)
    | DictK(val: Kind)
    | AnyDictK
    | OptionalK(inner: Kind)

  /** Whether a value has the declared type (a `float` field also takes an `int`). */
  predicate Conforms(v: Value, k: Kind)
    decreases k
  {
    match k
    case StrK => v.Str?
    case BoolK => v.Bool?
    case IntK => v.Int?
    case FloatK => v.Int? || v.Real?
    case ListK(e) => v.List? && forall i :: 0 <= i < |v.items| ==> Conforms(v.items[i], e)
    case DictK(e) => v.Dict? && forall key :: key in v.entries ==> Conforms(v.entries[key], e)
    case AnyDictK => v.Dict?
    case OptionalK(inner) => v.None? || Conforms(v, inner)
  }

  /** `Field(..., ge=lo, le=hi)` and `Field(..., ge=lo)`. */
  datatype Bound = Unbounded | Between(lo: real, hi: real) | AtLeast(min: real)

  function Numeric(v: Value): real {
    match v
    case Int(i) => i as real
    case Real(r) => r
    case _ => 0.0
  }

  predicate WithinBound(v: Value, b: Bound) {
    match b
    case Unbounded => true
    case Between(lo, hi) => lo <= Numeric(v) <= hi
    case AtLeast(lo) => lo <= Numeric(v)
  }

  /** `Field(...)` (required) or `Field(default)`. */
  datatype Default = Required | Default(value: Value)

  datatype FieldSpec = FieldSpec(kind: Kind, default: Default, bound: Bound)

  /** The declarations most fields share: optional, defaulting to None. */
  const OptionalStr := FieldSpec(OptionalK(StrK), Default(None), Unbounded)
  const OptionalStrMap := FieldSpec(OptionalK(DictK(StrK)), Default(None), Unbounded)
  const OptionalRange := FieldSpec(OptionalK(ListK(FloatK)), Default(None), Unbounded)

  datatype ExtraPolicy = Allow | Ignore

  datatype Schema = Schema(fields: map<string, FieldSpec>, extra: ExtraPolicy)

  datatype FieldError = Missing(field: string) | WrongType(field: string) | OutOfRange(field: string) {
    function Name(): string {
      match this
      case Missing(f) => f
      case WrongType(f) => f
      case OutOfRange(f) => f
    }
  }

  /** A pydantic `ValidationError`: field errors, or a model validator's complaint. */
  datatype ValidationError =
    | FieldErrors(errors: set<FieldError>)
    | ModelError(message: string)

  datatype Check = Fine | Fails(error: FieldError)

  /**
   * One field's check: a value that is omitted must have a default; a given
   * value must have the declared type and then respect the declared bounds.
   * Defaults themselves are not checked (pydantic does not validate defaults).
   */
  function CheckField(name: string, spec: FieldSpec, k: Args): Check {
    if name !in k then
      (if spec.default.Required? then Fails(Missing(name)) else Fine)
    else if !Conforms(k[name], spec.kind) then Fails(WrongType(name))
    else if !WithinBound(k[name], spec.bound) then Fails(OutOfRange(name))
    else Fine
  }

  /** Every field error pydantic would report for these keyword arguments. */
  function Errors(s: Schema, k: Args): set<FieldError> {
    set n | n in s.fields && CheckField(n, s.fields[n], k).Fails? :: CheckField(n, s.fields[n], k).error
  }

  /** The value a declared field ends up holding: the argument, else the default. */
  function FieldValue(name: string, spec: FieldSpec, k: Args): Value {
    if name in k then k[name]
    else match spec.default
      case Default(v) => v
      case Required => None // never reached by a successful validation
  }

  /** The extras the model keeps, according to its policy. */
  function KeptExtras(s: Schema, k: Args): map<string, Value> {
    match s.extra
    case Allow => map n | n in k && n !in s.fields :: k[n]
    case Ignore => map[]
  }

  /** The specification of acceptance, field by field. */
  predicate Accepts(s: Schema, k: Args) {
    forall n :: n in s.fields ==>
      if n in k then Conforms(k[n], s.fields[n].kind) && WithinBound(k[n], s.fields[n].bound)
      else s.fields[n].default.Default?
  }

  /** `Model(**k)`. */
  function Validate(s: Schema, k: Args): (r: Result<Config, ValidationError>)
    ensures r.Ok? <==> Accepts(s, k)
    ensures r.Err? ==> r.error.FieldErrors? && r.error.errors != {}
    ensures r.Ok? ==> r.value.fields.Keys == s.fields.Keys && r.value.fields.Keys !! r.value.extras.Keys
  {
    if !Accepts(s, k) then
      var n :| n in s.fields && CheckField(n, s.fields[n], k).Fails?;
      assert CheckField(n, s.fields[n], k).error in Errors(s, k);
      Err(FieldErrors(Errors(s, k)))
    else
      Ok(Config(map n | n in s.fields :: FieldValue(n, s.fields[n], k), KeptExtras(s, k)))
  }

  /** An accepted model holds every given argument and the default of every omitted field. */
  lemma ValidatedFields(s: Schema, k: Args)
    requires Validate(s, k).Ok?
    ensures forall n :: n in s.fields && n in k ==> Validate(s, k).value.fields[n] == k[n]
    ensures forall n :: n in s.fields && n !in k ==>
      s.fields[n].default.Default? && Validate(s, k).value.fields[n] == s.fields[n].default.value
  {
  }

  /** An optional field of an accepted model holds its argument when given, else None. */
  lemma OptionalValue(s: Schema, k: Args, n: string)
    requires Validate(s, k).Ok? && n in s.fields && s.fields[n].default == Default(None)
    ensures n in Validate(s, k).value.fields
    ensures Validate(s, k).value.fields[n] == if n in k then k[n] else None
  {
  }

  /** One omitted field of an accepted model holds its declared default. */
  lemma DefaultApplies(s: Schema, k: Args, n: string)
    requires Validate(s, k).Ok? && n in s.fields && n !in k
    ensures s.fields[n].default.Default? && Validate(s, k).value.fields[n] == s.fields[n].default.value
  {
  }

  /**
   * The extras policy: with `extra="allow"` every undeclared argument is kept
   * with its value, and with the default policy none is.
   */
  lemma ValidatedExtras(s: Schema, k: Args)
    requires Validate(s, k).Ok?
    ensures s.extra.Allow? ==> Validate(s, k).value.extras.Keys == k.Keys - s.fields.Keys
    ensures s.extra.Allow? ==> forall n :: n in k && n !in s.fields ==> Validate(s, k).value.extras[n] == k[n]
    ensures s.extra.Ignore? ==> Validate(s, k).value.extras == map[]
  {
  }

  /** A required field left out is reported by name, and validation fails. */
  lemma MissingIsReported(s: Schema, k: Args, n: string)
    requires n in s.fields && s.fields[n].default.Required? && n !in k
    ensures Validate(s, k).Err? && Missing(n) in Validate(s, k).error.errors
  {
    assert CheckField(n, s.fields[n], k) == Fails(Missing(n));
  }

  /** Every reported error names a declared field that is really at fault. */
  lemma ErrorsAreGenuine(s: Schema, k: Args, e: FieldError)
    requires Validate(s, k).Err? && e in Validate(s, k).error.errors
    ensures e.Name() in s.fields
    ensures e.Missing? ==> e.field !in k && s.fields[e.field].default.Required?
    ensures e.WrongType? ==> e.field in k && !Conforms(k[e.field], s.fields[e.field].kind)
    ensures e.OutOfRange? ==>
              && e.field in k && Conforms(k[e.field], s.fields[e.field].kind)
              && !WithinBound(k[e.field], s.fields[e.field].bound)
  {
    var n :| n in s.fields && CheckField(n, s.fields[n], k).Fails? && CheckField(n, s.fields[n], k).error == e;
  }

  /** The field errors a validation outcome reports (none for a success). */
  function Reported(r: Result<Config, ValidationError>): set<FieldError> {
    if r.Err? && r.error.FieldErrors? then r.error.errors else {}
  }

  /** A field's check fails exactly when validation reports that field's error. */
  lemma ReportedIff(s: Schema, k: Args, n: string, e: FieldError)
    requires n in s.fields && e.Name() == n
    ensures e in Reported(Validate(s, k)) <==> CheckField(n, s.fields[n], k) == Fails(e)
  {
    if CheckField(n, s.fields[n], k) == Fails(e) {
      assert e in Errors(s, k);
    }
    if e in Reported(Validate(s, k)) {
      ErrorsAreGenuine(s, k, e);
    }
  }

  /** A given field whose value has the declared type and bounds draws no error. */
  lemma GivenFieldAccepted(s: Schema, k: Args, n: string)
    requires n in s.fields && n in k
    requires Conforms(k[n], s.fields[n].kind) && WithinBound(k[n], s.fields[n].bound)
    ensures forall e :: e in Reported(Validate(s, k)) ==> e.Name() != n
  {
    forall e | e in Reported(Validate(s, k)) ensures e.Name() != n {
      ErrorsAreGenuine(s, k, e);
    }
  }

  /** A declared field of an accepted model: the given, well-typed value, or else the default. */
  lemma FieldHolds(s: Schema, k: Args, n: string)
    requires Validate(s, k).Ok? && n in s.fields
    ensures n in Validate(s, k).value.fields
    ensures n in k ==> Validate(s, k).value.fields[n] == k[n] && Conforms(k[n], s.fields[n].kind)
    ensures n !in k ==> s.fields[n].default.Default? && Validate(s, k).value.fields[n] == s.fields[n].default.value
  {
  }
}
