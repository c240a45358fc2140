/** `IsInstanceValidator`: accepts a Python object exactly when
    `isinstance(value, cls)` holds, returning the object itself.

    Building it checks the schema eagerly (the `cls` key is required and must
    be usable as the second argument of `isinstance`) and precomputes the
    display string and the diagnostic name. Validation refuses JSON input as
    a usage fault, passes members through unchanged and rejects the rest
    with an `IsInstanceOf` error carrying the display string. */
module IsInstance {
  import opened Results
  import opened PyHost
  import opened Inputs
  import opened Errors

  /** The schema dictionary handed to `build`, by key text. */
  type Schema = map<string, Obj>

  /** `EXPECTED_TYPE`, the schema type this validator is built for. */
  const ExpectedType: string := "is-instance"
  const ClsKey: string := "cls"
  const ClsReprKey: string := "cls_repr"
  // wording kept as the source has it, although `cls` is the second argument of `isinstance`
  const InvalidClsMessage: string := "'cls' must be valid as the first argument to 'isinstance'"
  const JsonModeMessage: string :=
    "Cannot check isinstance when validating from json, use a JsonOrPython validator instead."

  /** The exception validation raises for JSON input. */
  const JsonModeFault: PyExc := PyExc("NotImplementedError", JsonModeMessage)

  /** The built validator: the class it checks against (field `class` in Rust), its display string
      and its diagnostic name. Immutable once built. */
  datatype IsInstanceValidator = IsInstanceValidator(cls: Obj, classRepr: string, name: string)

  /** Why `build` can fail. */
  datatype BuildError =
    | MissingKey(key: string)     // a required schema key is absent
    | SchemaError(message: string) // the schema can never validate anything
    | Raised(exc: PyExc)          // an interpreter call raised while building

  /** The invariant every built validator keeps: its name is formed from its
      display string. */
  predicate WellFormed(v: IsInstanceValidator) {
    v.name == IsInstanceName(v.classRepr)
  }

  /** The diagnostic name `"is-instance[<display>]"`. */
  function IsInstanceName(classRepr: string): (name: string)
    ensures |name| == |ExpectedType| + |classRepr| + 2
    ensures name[..|ExpectedType|] == ExpectedType && name[|ExpectedType|] == '['
    ensures name[|name| - 1] == ']'
  {
    ExpectedType + "[" + classRepr + "]"
  }

  /** Reads the display string back out of a diagnostic name. */
  function ParseName(name: string): (r: Option<string>)
    ensures r.Some? ==> IsInstanceName(r.value) == name
    ensures forall classRepr :: name == IsInstanceName(classRepr) ==> r == Some(classRepr)
  {
    var prefix := ExpectedType + "[";
    if |name| >= |prefix| + 1 && name[..|prefix|] == prefix && name[|name| - 1] == ']'
    then Some(name[|prefix|..|name| - 1])
    else None
  }

  /** Two display strings give the same diagnostic name only if they are
      equal, so the name identifies the display string. */
  lemma NameInjective(classRepr1: string, classRepr2: string)
    requires IsInstanceName(classRepr1) == IsInstanceName(classRepr2)
    ensures classRepr1 == classRepr2
  {
    assert ParseName(IsInstanceName(classRepr1)) == Some(classRepr1);
    assert ParseName(IsInstanceName(classRepr2)) == Some(classRepr2);
  }

  /** The display string, by precedence: an explicit `cls_repr`, else the
      qualified name of a type, else `repr(cls)`. */
  function ClassRepr(h: Host, schema: Schema, cls: Obj): (r: HostResult<string>)
    ensures ClsReprKey in schema ==> r == h.extractString(schema[ClsReprKey])
    ensures ClsReprKey !in schema && h.isType(cls) ==> r == h.qualName(cls)
    ensures ClsReprKey !in schema && !h.isType(cls) ==>
      (h.repr(cls).Err? ==> r == Err(h.repr(cls).error)) &&
      (h.repr(cls).Ok? ==> r == h.extractString(h.repr(cls).value))
  {
    if ClsReprKey in schema then
      h.extractString(schema[ClsReprKey])
    else if h.isType(cls) then
      h.qualName(cls)
    else
      match h.repr(cls)
      case Err(e) => Err(e)
      case Ok(s) => h.extractString(s)
  }

  /** `isinstance("cls", cls)` raises: `cls` would make every validation
      fail. The probe object is the interned key string; any object would do. */
  function ProbeRaises(h: Host, cls: Obj): (raises: bool)
    // the probe raises exactly when validating the probe object against `cls`
    // would end in an internal error
    ensures forall v: IsInstanceValidator | v.cls == cls ::
      (Validate(h, v, Python(h.intern(ClsKey))).Err? &&
       Validate(h, v, Python(h.intern(ClsKey))).error.InternalErr?) <==> raises
  {
    h.isInstance(h.intern(ClsKey), cls).Err?
  }

  /** `BuildValidator::build`. */
  function Build(h: Host, schema: Schema): (r: Result<IsInstanceValidator, BuildError>)
    // no `cls`: fails before anything else is looked at
    ensures ClsKey !in schema ==> r == Err(MissingKey(ClsKey))
    // an unusable `cls`: a schema error, whatever `cls_repr` holds
    ensures ClsKey in schema && ProbeRaises(h, schema[ClsKey]) ==> r == Err(SchemaError(InvalidClsMessage))
    // success exactly when `cls` is present, usable and has a display string
    ensures r.Ok? <==>
      ClsKey in schema && !ProbeRaises(h, schema[ClsKey]) && ClassRepr(h, schema, schema[ClsKey]).Ok?
    // a built validator holds `cls` itself, its display string and its name
    ensures r.Ok? ==>
      && r.value.cls == schema[ClsKey]
      && Ok(r.value.classRepr) == ClassRepr(h, schema, schema[ClsKey])
      && WellFormed(r.value)
    // an interpreter exception while deriving the display string propagates
    ensures r.Err? && r.error.Raised? ==>
      ClsKey in schema && !ProbeRaises(h, schema[ClsKey])
      && ClassRepr(h, schema, schema[ClsKey]) == Err(r.error.exc)
    ensures ClsKey in schema && !ProbeRaises(h, schema[ClsKey]) && ClassRepr(h, schema, schema[ClsKey]).Err? ==>
      r == Err(Raised(ClassRepr(h, schema, schema[ClsKey]).error))
  {
    if ClsKey !in schema then
      Err(MissingKey(ClsKey))
    else
      var cls := schema[ClsKey];
      if ProbeRaises(h, cls) then
        Err(SchemaError(InvalidClsMessage))
      else
        match ClassRepr(h, schema, cls)
        case Err(e) => Err(Raised(e))
        case Ok(classRepr) => Ok(IsInstanceValidator(cls, classRepr, IsInstanceName(classRepr)))
  }

  /** `get_name`. */
  function GetName(v: IsInstanceValidator): (name: string)
    ensures WellFormed(v) ==> ParseName(name) == Some(v.classRepr)
  {
    v.name
  }

  /** The Python references the validator holds, reported to the garbage
      collector's traversal: exactly the class object. */
  function Traverse(v: IsInstanceValidator): (refs: seq<Obj>)
    ensures |refs| == 1
    ensures forall o :: o in refs <==> o == v.cls
  {
    [v.cls]
  }

  /** `Validator::validate`. The host is the interpreter at validation time,
      which may differ from the one at build time. */
  function Validate(h: Host, v: IsInstanceValidator, input: Input): (r: ValResult<Obj>)
    // JSON input: an internal fault, whatever the value and the host
    ensures !input.IsPython() ==> r == Err(InternalErr(JsonModeFault))
    // only a member passes, and it passes as itself
    ensures r.Ok? <==> input.IsPython() && h.isInstance(input.obj, v.cls) == Ok(true)
    ensures r.Ok? ==> input == Python(r.value)
    // a non-member gets one `IsInstanceOf` error carrying the display string
    ensures input.IsPython() && h.isInstance(input.obj, v.cls) == Ok(false) ==>
      r == Err(LineErrors([ValLineError(IsInstanceOf(v.classRepr, None), input, [])]))
    // an exception from `isinstance` propagates as an internal error
    ensures input.IsPython() && h.isInstance(input.obj, v.cls).Err? ==>
      r == Err(InternalErr(h.isInstance(input.obj, v.cls).error))
  {
    if !input.IsPython() then
      Err(InternalErr(JsonModeFault))
    else
      var ob := input.obj;
      match h.isInstance(ob, v.cls)
      case Err(e) => Err(InternalErr(e))
      case Ok(true) => Ok(ob)
      case Ok(false) => Err(NewValError(IsInstanceOf(v.classRepr, None), input))
  }

  /** Validation of JSON input never consults the interpreter nor depends
      on the value. */
  lemma JsonIgnoresHostAndValue(h1: Host, h2: Host, v: IsInstanceValidator, j1: JsonValue, j2: JsonValue)
    ensures Validate(h1, v, Json(j1)) == Validate(h2, v, Json(j2))
  {
  }

  /** A present `cls_repr` is used as the display string whatever `cls` is. */
  lemma ClsReprOverridesClass(h: Host, schema: Schema, cls1: Obj, cls2: Obj)
    requires ClsReprKey in schema
    ensures ClassRepr(h, schema, cls1) == ClassRepr(h, schema, cls2)
  {
  }

  /** The build-time probe pays off: as long as `isinstance` behaves on the
      probe object as it did at build time, validating that object never
      raises an internal error. */
  lemma BuiltValidatorProbeIsSafe(hb: Host, hv: Host, schema: Schema, v: IsInstanceValidator)
    requires Build(hb, schema) == Ok(v)
    requires hv.isInstance(hb.intern(ClsKey), v.cls) == hb.isInstance(hb.intern(ClsKey), v.cls)
    ensures var r := Validate(hv, v, Python(hb.intern(ClsKey)));
      r.Ok? || r.error.LineErrors?
  {
  }

  /** The error for a rejected object names the same display string as the
      validator's diagnostic name. */
  lemma RejectionMatchesName(hb: Host, hv: Host, schema: Schema, v: IsInstanceValidator, ob: Obj)
    requires Build(hb, schema) == Ok(v)
    requires hv.isInstance(ob, v.cls) == Ok(false)
    ensures var r := Validate(hv, v, Python(ob));
      r.Err? && r.error.LineErrors? && |r.error.errors| == 1
      && GetName(v) == IsInstanceName(r.error.errors[0].errorType.cls)
  {
  }

  /** A built validator is determined by its class and its diagnostic name:
      the name fixes the display string. */
  lemma BuiltIdentifiedByClassAndName(h1: Host, h2: Host, s1: Schema, s2: Schema,
                                      v1: IsInstanceValidator, v2: IsInstanceValidator)
    requires Build(h1, s1) == Ok(v1) && Build(h2, s2) == Ok(v2)
    requires v1.cls == v2.cls && GetName(v1) == GetName(v2)
    ensures v1 == v2
  {
    NameInjective(v1.classRepr, v2.classRepr);
  }

  /** The garbage collector sees exactly the `cls` object of the schema. */
  lemma BuiltTraversesCls(h: Host, schema: Schema, v: IsInstanceValidator)
    requires Build(h, schema) == Ok(v)
    ensures ClsKey in schema && Traverse(v) == [schema[ClsKey]]
  {
  }
}
