/** nconf's format registry (lib/nconf/formats/index.js): the scan that
    registers every format module of its directory, the `default` slot of the
    exports object, `detect` and `chooseFormator`. */
module Formats {
  import opened JsValues
  import opened JsStrings
  import NodePath

  // ---------------------------------------------------------------------
  // Registration: the directory scan run once when the module loads
  // ---------------------------------------------------------------------

  /** The scan's filter: not a hidden entry (`file.indexOf(".") !== 0`) and
      not the registry's own `index.js`. */
  function Listed(file: string): (ok: bool)
    ensures ok <==> (file == "" || file[0] != '.') && file != "index.js"
  {
    IndexOf(file, '.') != 0 && file != "index.js"
  }

  /** `file.substring(0, file.indexOf('.'))`: the file name up to its first
      '.'. Without a '.', `indexOf` gives -1, which `substring` clamps to 0,
      so the result is "". */
  function FilePrefix(file: string): (stem: string)
    ensures |stem| <= |file| && stem == file[..|stem|]
    ensures forall k :: 0 <= k < |stem| ==> stem[k] != '.'
    ensures stem != "" ==> |stem| < |file| && file[|stem|] == '.'
    ensures stem == "" ==> (file != "" && file[0] == '.') || forall k :: 0 <= k < |file| ==> file[k] != '.'
  {
    var dot := IndexOf(file, '.');
    if dot < 0 then "" else file[..dot]
  }

  /** The key a module is registered under: its `name` when truthy,
      otherwise the file name up to its first '.'. */
  function RegistrationName(file: string, model: JsObject): (key: string)
    ensures model.Object? && model.name.Some? && model.name.value != "" ==> key == model.name.value
    ensures !(model.Object? && model.name.Some? && model.name.value != "") ==> key == FilePrefix(file)
  {
    match TruthyName(model)
    case Some(name) => name
    case None => FilePrefix(file)
  }

  /** An entry of the directory listing that the scan registers: it passes
      the filter and the module itself satisfies `checkFormatProcessor`. */
  predicate Admitted(entry: (string, JsObject)) {
    Listed(entry.0) && IsFormatProcessor(entry.1)
  }

  /** The formats the scan registers from a directory listing of
      (file name, loaded module) pairs, taken in order. */
  function Registered(listing: seq<(string, JsObject)>): (formats: map<string, JsObject>)
    ensures forall key :: key in formats ==> IsFormatProcessor(formats[key])
  {
    if listing == [] then map[]
    else
      var formats := Registered(listing[..|listing| - 1]);
      var entry := listing[|listing| - 1];
      if Admitted(entry) then formats[RegistrationName(entry.0, entry.1) := entry.1] else formats
  }

  // ---------------------------------------------------------------------
  // The exports object after loading
  // ---------------------------------------------------------------------

  /** The members of `Object.prototype`, which the exports object inherits. */
  const PrototypeMembers: set<string> :=
    {"constructor", "hasOwnProperty", "isPrototypeOf", "propertyIsEnumerable", "toLocaleString",
     "toString", "valueOf", "__defineGetter__", "__defineSetter__", "__lookupGetter__",
     "__lookupSetter__", "__proto__"}

  /** The `default` getter: `__defaultFormator || formats.json`. */
  function DefaultFormator(formats: map<string, JsObject>, slot: Option<JsObject>): (r: Option<JsObject>)
    ensures slot.Some? ==> r == slot
    ensures slot.None? && "json" in formats ==> r == Some(formats["json"])
    ensures slot.None? && "json" !in formats ==> r.None?
  {
    if slot.Some? then slot
    else if "json" in formats then Some(formats["json"])
    else None
  }

  /** `formats[key]` on the exports object: `default` is the accessor and
      `chooseFormator` the function, both defined after the scan and so
      shadowing a format registered under those names; then the registered
      formats; then what `Object.prototype` provides. */
  function Property(formats: map<string, JsObject>, slot: Option<JsObject>, key: string): (r: Option<JsObject>)
    ensures key == "default" ==> r == DefaultFormator(formats, slot)
    ensures key == "chooseFormator" ==> r == Some(Intrinsic(key))
    ensures key != "default" && key != "chooseFormator" && key !in PrototypeMembers ==>
              (r.Some? <==> key in formats) && (key in formats ==> r.value == formats[key])
    ensures r.Some? && IsFormatProcessor(r.value) ==> r.value in formats.Values || r == DefaultFormator(formats, slot)
  {
    if key == "default" then DefaultFormator(formats, slot)
    else if key == "chooseFormator" then Some(Intrinsic(key))
    else if key in formats then Some(formats[key])
    else if key in PrototypeMembers then Some(Intrinsic(key))
    else None
  }

  // ---------------------------------------------------------------------
  // Selection: detect and chooseFormator
  // ---------------------------------------------------------------------

  /** `path.extname(name).substr(1)`: the extension without its leading '.'. */
  function FileType(name: string): (t: string)
    ensures forall k :: 0 <= k < |t| ==> t[k] != '.' && t[k] != '/'
  {
    var e := NodePath.ExtName(name);
    if e == "" then "" else e[1..]
  }

  /** The lookup `detect` makes for a file name: nothing when its extension is
      empty, otherwise the exports object's property of that name. */
  function DetectByName(formats: map<string, JsObject>, slot: Option<JsObject>, name: string): Option<JsObject> {
    var fileType := FileType(name);
    if fileType == "" then None else Property(formats, slot, fileType)
  }

  /** `detect(file)`: the extension of a string, or of the `name` of an
      object, looked up as written. Any other kind of value detects nothing.
      `null` throws when `file.name` is read, and an object whose `name` is
      not a string makes `path.extname` throw. */
  function Detect(formats: map<string, JsObject>, slot: Option<JsObject>, file: FileRef): (r: Result<Option<JsObject>>)
    ensures r.Err? <==> file.NullRef? || file == ObjectRef(None)
    ensures r.Err? ==> r.error == TypeError
    ensures file.OtherRef? ==> r == Ok(None)
    ensures file.PathRef? ==> r == Ok(if FileType(file.path) == "" then None else Property(formats, slot, FileType(file.path)))
    ensures file.ObjectRef? && file.name.Some? ==>
              r == Ok(if FileType(file.name.value) == "" then None else Property(formats, slot, FileType(file.name.value)))
  {
    match file
    case PathRef(p) => Ok(DetectByName(formats, slot, p))
    case ObjectRef(Some(name)) => Ok(DetectByName(formats, slot, name))
    case ObjectRef(None) => Err(TypeError)
    case NullRef => Err(TypeError)
    case OtherRef(_) => Ok(None)
  }

  /** The text of the thrown Error around the file reference. */
  const ContractHead := "The file formator muse have parse and stringify function, but the file("
  const ContractTail := ") formator doesn't have"

  /** The text of the warning around the file reference. */
  const WarningHead := "We can't detect a formator by file('"
  const WarningTail := "') extname, so use the default formator."

  /** The message of the Error thrown for an explicit formatter that breaks the contract. */
  function ContractMessage(file: FileRef): string {
    ContractHead + ToText(file) + ContractTail
  }

  /** The warning written when neither an explicit formatter nor detection gives one. */
  function WarningMessage(file: FileRef): string {
    WarningHead + ToText(file) + WarningTail
  }

  /** The `NODE_ENV` value that silences the warning. */
  const Production := "production"

  /** `process.env.NODE_ENV || 'development'`, read once when the module loads. */
  function LoadTimeEnv(nodeEnv: Option<string>): (env: string)
    ensures env != ""
    ensures nodeEnv.Some? && nodeEnv.value != "" ==> env == nodeEnv.value
    ensures nodeEnv.None? || nodeEnv.value == "" ==> env == "development"
  {
    if nodeEnv.Some? && nodeEnv.value != "" then nodeEnv.value else "development"
  }

  /** What one call of `chooseFormator` yields: its outcome (the formatter
      returned, or the error thrown) and the warning it writes, if any. */
  datatype Choice = Choice(result: Result<Option<JsObject>>, warning: Option<string>)

  /** `chooseFormator(file, selected)` over the exports object's state. */
  function Choose(formats: map<string, JsObject>, slot: Option<JsObject>, env: string,
                  file: FileRef, selected: Option<JsObject>): (c: Choice)
    ensures selected.Some? ==> c.warning.None? && (c.result.Ok? <==> IsFormatProcessor(selected.value))
    ensures c.result.Err? ==> c.warning.None?
    ensures c.warning.Some? ==>
              c.warning.value == WarningMessage(file) && env != Production &&
              c.result == Ok(DefaultFormator(formats, slot))
    ensures c.result.Ok? && c.result.value.Some? ==>
              c.result.value == selected || c.result == Detect(formats, slot, file) ||
              c.result.value == DefaultFormator(formats, slot)
  {
    if selected.Some? then
      if !IsFormatProcessor(selected.value) then Choice(Err(ContractViolation(ContractMessage(file))), None)
      else Choice(Ok(selected), None)
    else
      match Detect(formats, slot, file)
      case Err(e) => Choice(Err(e), None)
      case Ok(Some(detected)) => Choice(Ok(Some(detected)), None)
      case Ok(None) =>
        Choice(Ok(DefaultFormator(formats, slot)),
               if env != Production then Some(WarningMessage(file)) else None)
  }

  /** The warnings a call adds to the diagnostic stream. */
  function Written(warning: Option<string>): seq<string> {
    if warning.Some? then [warning.value] else []
  }

  // ---------------------------------------------------------------------
  // The exports object as state
  // ---------------------------------------------------------------------

  /** The loaded module's exports object: the registered formats, the
      `__defaultFormator` slot behind the `default` accessor, the `NODE_ENV`
      value captured at load time, and the warnings written so far. */
  class Registry {
    var formats: map<string, JsObject>
    var defaultFormator: Option<JsObject>
    const env: string
    ghost var warnings: seq<string>

    /** Loading the module: scan the directory listing and register every
        module that passes the filter and the contract. */
    constructor (listing: seq<(string, JsObject)>, nodeEnv: Option<string>)
      ensures formats == Registered(listing)
      ensures defaultFormator == None && env == LoadTimeEnv(nodeEnv) && warnings == []
    {
      env := LoadTimeEnv(nodeEnv);
      defaultFormator := None;
      warnings := [];
      formats := map[];
      new;
      var i := 0;
      while i < |listing|
        invariant 0 <= i <= |listing|
        invariant formats == Registered(listing[..i])
        invariant defaultFormator == None && warnings == []
      {
        var file, model := listing[i].0, listing[i].1;
        assert listing[..i + 1][..i] == listing[..i];
        if Listed(file) {
          if !IsFormatProcessor(model) {
            // Babel/ES6 interop: the nested default export is picked up,
            // but the branch returns before registering anything.
            if model.Object? && model.defaultExport.Some? && IsFormatProcessor(model.defaultExport.value) {
              model := model.defaultExport.value;
            }
          } else {
            var modelName := if TruthyName(model).Some? then TruthyName(model).value else FilePrefix(file);
            formats := formats[modelName := model];
          }
        }
        i := i + 1;
      }
      assert listing[..|listing|] == listing;
    }

    /** `formats.default = value`: stored as given, without validation. */
    method SetDefault(value: Option<JsObject>)
      modifies this`defaultFormator
      ensures defaultFormator == value
    {
      defaultFormator := value;
    }

    /** Reading `formats.default`. */
    method GetDefault() returns (r: Option<JsObject>)
      ensures r == DefaultFormator(formats, defaultFormator)
    {
      r := DefaultFormator(formats, defaultFormator);
    }

    /** `formats.chooseFormator(file, selected)`. */
    method ChooseFormator(file: FileRef, selected: Option<JsObject>) returns (r: Result<Option<JsObject>>)
      modifies this`warnings
      ensures r == Choose(formats, defaultFormator, env, file, selected).result
      ensures warnings == old(warnings) + Written(Choose(formats, defaultFormator, env, file, selected).warning)
    {
      var choice := Choose(formats, defaultFormator, env, file, selected);
      warnings := warnings + Written(choice.warning);
      r := choice.result;
    }
  }
}
