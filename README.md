# IsInstanceValidator, modelled in Dafny

This project models the `is-instance` validator of pydantic-core
(`src/validators/is_instance.rs`). The validator checks that a Python object
is an instance of a given class. It has two operations.

- **build** turns a schema dictionary into a validator. The `cls` key is
  required. `cls` is then probed with `isinstance("cls", cls)`; if that call
  raises, build fails with a schema error. Next a display string is derived:
  an explicit `cls_repr` wins, then the class's `__qualname__` when `cls` is a
  type, then `repr(cls)`. The diagnostic name is `"is-instance[" + display + "]"`.
- **validate** refuses JSON input with an internal `NotImplementedError`
  fault. It returns a Python input unchanged when it is an instance of `cls`.
  Otherwise it returns one `IsInstanceOf` line error that carries the display
  string and no context. An exception raised by `isinstance` at validation
  time propagates as an internal error.

The Python interpreter is kept abstract:

- `PyHost.Obj` is an object known only by its address, so "returned unchanged"
  means "the same object".
- `PyHost.Host` is a record of uninterpreted functions, passed as a parameter
  to every operation: `intern`, `isInstance` (which may raise), `isType`,
  `qualName`, `repr` and `extractString`.
- The schema is a `map<string, Obj>`.
- `Inputs.Input` is `Python(Obj) | Json(JsonValue)`.

The contracts describe the validator's own logic relative to these oracles.
Validation takes its own `Host`, so the interpreter may have changed since
build.

Files:

- `results.dfy`: `Option` and `Result`.
- `py_host.dfy`: the object model and the interpreter oracle.
- `input.dfy`: the two input modes.
- `errors.dfy`: the validation errors this validator produces.
- `is_instance.dfy`: the validator, its operations and the lemmas about them.

Three points about what the code does:

- A missing `cls` is reported by the crate's `get_as_req` helper. It is
  modelled as its own error, `MissingKey("cls")`, rather than as a schema
  error.
- The schema error for an unusable `cls` carries the message
  "'cls' must be valid as the first argument to 'isinstance'".
- A failure to extract `cls_repr` as a string, or a raising `__qualname__` or
  `repr`, makes build fail with that exception (`Raised`).

## Model

| member | source | states |
|---|---|---|
| `IsInstance.Build` | src/validators/is_instance.rs:23-52 | A missing `cls` yields `MissingKey("cls")`, whatever else the schema or the host holds. A raising probe `isinstance("cls", cls)` yields the fixed schema error, whatever `cls_repr` holds. Build succeeds exactly when `cls` is present, the probe does not raise and a display string can be derived. The built validator holds `cls` itself, the derived display string and the name formed from it. When `cls` is present and usable but deriving the display string raises, the result is `Raised` with that exception, and a `Raised` result arises only this way. |
| `IsInstance.ClassRepr` | src/validators/is_instance.rs:38-44 | Display-string precedence. A present `cls_repr` is used as extracted, whatever `cls` is. Otherwise a type gives its `__qualname__`. Otherwise `repr(cls)` is extracted as a string. Exceptions from any of these calls are passed on. |
| `IsInstance.ProbeRaises` | src/validators/is_instance.rs:34 | The build-time probe `isinstance("cls", cls)` raises exactly when validating that probe object against `cls` would end in an internal error. |
| `IsInstance.IsInstanceName` | src/validators/is_instance.rs:45 | The diagnostic name starts with `"is-instance["`, ends with `]` and is the display string plus 13 characters long. That the display string is what lies between is stated by its inverse `ParseName`. |
| `IsInstance.ClsReprOverridesClass` | src/validators/is_instance.rs:38-39 | When `cls_repr` is present, the display string does not depend on `cls`. |
| `IsInstance.ParseName` | src/validators/is_instance.rs:45 | Inverse of the name format. Parsing a name built from a display string gives back exactly that string. Any name that parses is the format of what it parses to. |
| `IsInstance.NameInjective` | src/validators/is_instance.rs:45 | Distinct display strings give distinct diagnostic names. |
| `IsInstance.GetName` | src/validators/is_instance.rs:84-86 | For a well-formed validator, the name returned parses back to the validator's display string. |
| `IsInstance.BuiltIdentifiedByClassAndName` | src/validators/is_instance.rs:45-50 | Two built validators with the same class and the same name are the same validator. |
| `IsInstance.Traverse` | src/validators/is_instance.rs:55 | The garbage-collector traversal yields exactly one reference, the stored class. |
| `IsInstance.BuiltTraversesCls` | src/validators/is_instance.rs:46-55 | After a successful build, the traversal yields exactly the schema's `cls` object. |
| `IsInstance.Validate` | src/validators/is_instance.rs:58-82 | JSON input gives an internal `NotImplementedError` whatever its content. A result is `Ok` exactly when the input is a Python object and `isinstance` returns true, and then it is that same object. A false `isinstance` gives one `IsInstanceOf` line error with the validator's display string, no context, the input and the empty location. A raising `isinstance` gives an internal error with that exception. |
| `IsInstance.JsonIgnoresHostAndValue` | src/validators/is_instance.rs:64-69 | For JSON input the result depends neither on the interpreter nor on the value, so the membership oracle is never consulted. |
| `IsInstance.BuiltValidatorProbeIsSafe` | src/validators/is_instance.rs:32-36 | If `isinstance` still behaves on the probe object as it did at build, validating the probe object never gives an internal error. |
| `IsInstance.RejectionMatchesName` | src/validators/is_instance.rs:74-80 | For a built validator, the single error for a rejected object carries the display string inside the validator's diagnostic name. |

## Left out

- pyo3 machinery (the GIL token, `intern!`, `Bound`/`Py` handles, `into()` into `CombinedValidator`) is not modelled. Objects are opaque values and interpreter calls are fields of `Host`.
- The real semantics of `isinstance`, `__qualname__`, `repr` and string extraction are not modelled. They are interpreter behaviour and appear as uninterpreted oracles.
- `ValidationState` and the unused `_config` and `_definitions` parameters are omitted. This validator never reads or changes them.
- `Input::to_object` is taken to return the input's own object. `src/input` is not part of this model.
- `crate::errors` is not part of this model. `ValError::new` is taken to build one line error at the empty location. Its other variants (`Omit`, `UseDefault`) are not modelled because this validator never produces them.
- `crate::tools` is not part of this model. The exception class `get_as_req` raises for a missing key is not modelled; the model records only which key was missing. A failing lookup in the schema dictionary itself is not modelled.
- The internals of `impl_py_gc_traverse!` and collector cooperation are not modelled. Only the list of references it visits is.
- Thread sharing is not modelled. The validator is an immutable value, and validation is a function of the validator, the input and the interpreter.
- Error message texts are recorded as constants, but no property depends on their wording.
