/** The JavaScript values that the format registry and selector handle.

    Only the properties the registry probes are kept: whether `parse` and
    `stringify` are functions, the `name` property, and the nested `default`
    export that the scan looks at for Babel-compiled modules. A falsy value
    (undefined, null, false, 0, NaN, "") is `None` of an `Option<JsObject>`;
    every truthy value is a `JsObject`. A truthy primitive (a non-empty string,
    a non-zero number, true) has no `parse` or `stringify` property, so it is
    represented by an `Object` whose two flags are false. */
module JsValues {

  datatype Option<+T> = None | Some(value: T)

  /** Thrown JavaScript errors. */
  datatype Error =
    | ContractViolation(message: string)   // `new Error(...)` thrown by chooseFormator
    | TypeError                            // thrown by `path.extname` on a non-string or by `null.name`

  datatype Result<+T> = Ok(value: T) | Err(error: Error)

  /** A truthy JavaScript value.
      `Object` is an object of the program's own: a loaded module, a format
      passed in by a caller, a value stored into the default slot; `id` stands
      for its identity, so that two distinct objects with the same properties
      are told apart.
      `Intrinsic(key)` is what the exports object yields under a property name
      it owns or inherits besides the registered formats: the `chooseFormator`
      function, or a member of `Object.prototype` such as `toString`. None of
      these has `parse` or `stringify`. */
  datatype JsObject =
    | Object(id: nat, name: Option<string>, parseIsFunction: bool, stringifyIsFunction: bool,
             defaultExport: Option<JsObject>)
    | Intrinsic(key: string)

  /** `checkFormatProcessor`: both `parse` and `stringify` are functions. */
  function IsFormatProcessor(o: JsObject): (ok: bool)
    ensures ok ==> o.Object? && o.parseIsFunction && o.stringifyIsFunction
    ensures o.Object? && o.parseIsFunction && o.stringifyIsFunction ==> ok
    ensures o.Intrinsic? ==> !ok
  {
    o.Object? && o.parseIsFunction && o.stringifyIsFunction
  }

  /** The `name` of an object when it is a non-empty string, the only case in
      which the scan uses it. */
  function TruthyName(o: JsObject): (r: Option<string>)
    ensures r.Some? <==> o.Object? && o.name.Some? && o.name.value != ""
    ensures r.Some? ==> r == o.name && r.value != ""
  {
    if o.Object? && o.name.Some? && o.name.value != "" then o.name else None
  }

  /** The file reference handed to `detect` and `chooseFormator`.
      `PathRef(p)` is a string; `ObjectRef(n)` an object whose `name`
      property is the string `n`, or is not a string when `n` is `None`;
      `NullRef` is `null` (whose `typeof` is also "object"); `OtherRef(t)` any
      other value (a number, a boolean, undefined, a function), `t` being how
      it converts to a string. */
  datatype FileRef =
    | PathRef(path: string)
    | ObjectRef(name: Option<string>)
    | NullRef
    | OtherRef(text: string)

  /** `'' + file`: the text a file reference becomes inside a message. A plain
      object converts to "[object Object]". */
  function ToText(file: FileRef): (text: string)
    ensures file.PathRef? ==> text == file.path
    ensures file.ObjectRef? ==> text == "[object Object]"
    ensures file.NullRef? ==> text == "null"
    ensures file.OtherRef? ==> text == file.text
  {
    match file
    case PathRef(p) => p
    case ObjectRef(_) => "[object Object]"
    case NullRef => "null"
    case OtherRef(t) => t
  }
}
