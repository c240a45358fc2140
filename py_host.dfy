/** The part of the Python object model that the is-instance validator
    touches, kept abstract. Python objects are opaque and identified by
    their address; the interpreter's behaviour (`isinstance`, `__qualname__`,
    `repr`, string extraction) is an oracle handed to every operation as a
    `Host` value, because its real semantics live outside this crate. */
module PyHost {
  import opened Results

  /** A Python object, known only by its identity. */
  datatype Obj = Obj(address: nat)

  /** A raised Python exception: its class name and its message. */
  datatype PyExc = PyExc(typeName: string, message: string)

  /** The outcome of a call into the interpreter, which may raise. */
  type HostResult<T> = Result<T, PyExc>

  /** The interpreter as seen from this validator. Each field is one
      foreign call; none of them is interpreted here. */
  datatype Host = Host(
    // the interned Python `str` object for a piece of text
    intern: string -> Obj,
    // `isinstance(ob, cls)`, which raises when `cls` is not a class,
    // a tuple of classes or an object with a suitable `__instancecheck__`
    isInstance: (Obj, Obj) -> HostResult<bool>,
    // whether an object is a `type` (extraction as `&PyType` succeeds)
    isType: Obj -> bool,
    // `t.__qualname__` of a type object
    qualName: Obj -> HostResult<string>,
    // `repr(ob)`, giving a `str` object
    repr: Obj -> HostResult<Obj>,
    // extraction of a Python `str` object as a Rust `String`
    extractString: Obj -> HostResult<string>
  )
}
