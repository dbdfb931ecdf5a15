# nconf format registry and format selector

This project models `lib/nconf/formats/index.js` of nconf, the hierarchical
configuration loader. File-backed stores use this module to pick the
serialization format (a `parse`/`stringify` pair) for a configuration file.
It has four parts:

- the scan that runs when the module loads. It goes over the files of its
  own directory, skips hidden entries and `index.js`, keeps the modules whose
  `parse` and `stringify` are both functions, and registers each one under
  its `name`, or else under its file name up to the first `.`;
- the `default` accessor. The setter stores any value. The getter returns
  that value when it is truthy, and otherwise whatever `formats.json` holds
  when it is read;
- `detect`, which looks up the extension of a path, or of an object's
  `name`, as a key of the exports object;
- `chooseFormator`, which checks and returns an explicit formatter or else
  returns the detected one. When detection misses, it falls back to
  `formats.default` and writes a warning unless `NODE_ENV` was
  `production` when the module loaded.

Files:

- `js_values.dfy` (module `JsValues`): the JavaScript values involved.
  A falsy value is `None`. A truthy value is an `Object` with an identity,
  its `name`, whether `parse` and `stringify` are functions, and its nested
  `default` export. The other truthy values (`Intrinsic`) are the
  `chooseFormator` function and the members the exports object inherits
  from `Object.prototype`, none of which is a format. The module also holds the file
  references, the thrown errors and `checkFormatProcessor`.
- `js_strings.dfy` (module `JsStrings`): `indexOf` and `lastIndexOf` on a
  character.
- `node_path.dfy` (module `NodePath`): Node's POSIX `path.extname`.
- `formats.dfy` (module `Formats`): the registration, the exports object's
  property lookup, `detect` and `chooseFormator` as functions, and the
  class `Registry`. The class holds the exports object's state: the
  registered formats, the `default` slot, the load-time environment and a
  ghost log of warnings. Its constructor runs the scan loop; its methods are
  the accessor and `chooseFormator`.
- `formats_lemmas.dfy` (module `FormatsLemmas`): the properties of the
  registry and the selector, and the shipped directory (`index.js`,
  `json.js`, `json5.js`).

The model follows the code as written, including where it departs from what
its comments and names suggest:

- A module that fails the contract while its nested `default` export keeps
  it is never registered. The interop branch assigns the nested export to a
  local variable and then returns (`lib/nconf/formats/index.js:23-31`).
  The constructor's loop keeps that branch as written, and
  `FormatsLemmas.InadmissibleIgnored` proves it leaves no trace.
- `chooseFormator` does not always return a format, and can return a
  falsy value. The fallback returns `formats.default` unchecked: a value
  stored through the setter, or nothing when `json` is not registered.
  `detect` reads any property of the exports object, so an extension such
  as `toString` or `chooseFormator` yields a function that is not a format
  (`FormatsLemmas.ChooseMayReturnNonFormat`). The extension `default`
  yields the default without a warning when the default is truthy. When it
  is falsy (an unset slot and no `json`), detection misses and the call
  warns.
- Names are not lowercased. A module's `name` or file-name prefix is used
  as it is, and detection is case-sensitive
  (`FormatsLemmas.DetectIsCaseSensitive`).
- A file with no `.` and no truthy `name` is registered under `""`, since
  `substring(0, -1)` is empty.
- `path.extname` is Node's, not a simplified version. Trailing `/` are
  ignored. A last segment whose only `.` is its first character has no
  extension, and neither does the segment `..`.

## Model

| member | source | states |
|---|---|---|
| JsValues.IsFormatProcessor | lib/nconf/formats/index.js:58-61 | a value passes the contract if and only if both `parse` and `stringify` are functions; the `chooseFormator` function and the inherited `Object.prototype` members (`Intrinsic`) never pass |
| JsValues.TruthyName | lib/nconf/formats/index.js:33-34 | the result is the module's `name` exactly when that is a non-empty string, and nothing otherwise |
| JsValues.ToText | lib/nconf/formats/index.js:97-111 | a string path appears in the messages verbatim; every object reference, whatever its `name`, appears as `[object Object]`; `null` appears as `null`; any other value appears as its given text |
| JsStrings.IndexOf | lib/nconf/formats/index.js:17 | the result is -1 exactly when the character is absent; otherwise it is the first position holding the character |
| JsStrings.LastIndexOf | lib/nconf/formats/index.js:72 | the result is the last position before `end` holding the character, or -1 when none does |
| NodePath.TrimmedEnd | lib/nconf/formats/index.js:72 | trailing '/' are dropped: everything from the result to `n` is '/', and the character before the result is not |
| NodePath.ExtName | lib/nconf/formats/index.js:72-76 | a non-empty extension starts with '.', contains no other '.' or '/', and is the tail of the path once trailing '/' are dropped |
| NodePath.ExtNameNoDot | lib/nconf/formats/index.js:72-76 | a path without '.' has the empty extension |
| NodePath.ExtNameOfDotted | lib/nconf/formats/index.js:72-76 | `<stem>.<ext>` has the extension `.<ext>` when the stem is non-empty and does not end in '/' |
| NodePath.ExtNameOfHidden | lib/nconf/formats/index.js:72-76 | a last segment `.<ext>` (a hidden file) has the empty extension |
| Formats.Listed | lib/nconf/formats/index.js:16-19 | the filter drops exactly the names starting with '.' and `index.js` |
| Formats.RegistrationName | lib/nconf/formats/index.js:33-36 | the key is the module's `name` when that is a non-empty string, otherwise the file name up to its first '.' |
| Formats.FilePrefix | lib/nconf/formats/index.js:35 | the result is the prefix of the file name before its first '.'; it is empty when the name starts with '.' or has no '.' |
| Formats.Registered | lib/nconf/formats/index.js:14-38 | every value the scan registers satisfies the format contract |
| Formats.DefaultFormator | lib/nconf/formats/index.js:48-50 | a truthy slot is returned as is; an empty slot gives the current `json` entry, or nothing when `json` is not registered |
| Formats.Property | lib/nconf/formats/index.js:81 | `default` reads the getter and `chooseFormator` the function; any other key that is not an `Object.prototype` member gives the registered format or nothing; a format found is registered or is the default |
| Formats.Detect | lib/nconf/formats/index.js:68-85 | `null` and an object whose `name` is not a string throw a TypeError and nothing else throws; other non-strings detect nothing; a path, or an object's `name`, is looked up under its extension without the dot, and an empty extension detects nothing |
| Formats.Choose | lib/nconf/formats/index.js:93-115 | an explicit formatter never warns and is accepted exactly when it passes the contract; a throwing call never warns; a warning is the documented text, is written only outside production, and comes with the unchecked default as result; a truthy result is the explicit, the detected or the default formatter |
| Formats.FileType | lib/nconf/formats/index.js:72-76 | the extension without its dot contains no '.' and no '/' |
| Formats.LoadTimeEnv | lib/nconf/formats/index.js:9 | a non-empty `NODE_ENV` is kept as it is; an unset or empty one gives `development`; so the result is never empty |
| Formats.Registry.constructor | lib/nconf/formats/index.js:9-43 | the loop over the listing leaves exactly the registration of the whole listing, an unset default slot, the load-time env and no warnings |
| Formats.Registry.SetDefault | lib/nconf/formats/index.js:45-47 | the setter stores its argument as given, without validation, and changes nothing else |
| Formats.Registry.GetDefault | lib/nconf/formats/index.js:48-50 | the getter returns the slot when it is truthy, else the current `json` entry |
| Formats.Registry.ChooseFormator | lib/nconf/formats/index.js:93-115 | the result is the selection for the current state, and the warning log grows by exactly the warning that selection writes |
| FormatsLemmas.FilePrefixOfName | lib/nconf/formats/index.js:35 | `<stem>.<rest>` is keyed by `<stem>` when the stem has no '.' |
| FormatsLemmas.RegisteredFrom | lib/nconf/formats/index.js:16-37 | every registered key comes from an admitted entry (listed, passing the contract) whose name it is, and the stored value is that entry's module |
| FormatsLemmas.RegisteredLastWins | lib/nconf/formats/index.js:33-37 | every admitted entry is registered under its name unless a later admitted entry has the same name |
| FormatsLemmas.InadmissibleIgnored | lib/nconf/formats/index.js:16-31 | a hidden file, `index.js`, or a module failing the contract changes nothing wherever it stands in the listing, even when its nested `default` passes |
| FormatsLemmas.DefaultGetter | lib/nconf/formats/index.js:48-50 | the getter yields a truthy slot, else the `json` property; with `json` registered it is never falsy |
| FormatsLemmas.DetectByExtension | lib/nconf/formats/index.js:68-85 | a path or object named `<stem>.<ext>` is looked up under `<ext>`, exactly as written, and yields the format registered there or nothing; the lemma covers extensions other than `default`, `chooseFormator` and the `Object.prototype` member names, which `Formats.Property` states separately |
| FormatsLemmas.DetectWithoutExtension | lib/nconf/formats/index.js:68-85 | a name without '.' detects nothing, whether given as a path or as an object's `name` |
| FormatsLemmas.DetectHiddenName | lib/nconf/formats/index.js:68-85 | a hidden file name such as `.json` detects nothing, even with `json` registered |
| FormatsLemmas.DetectOtherReferences | lib/nconf/formats/index.js:68-85 | `null` and an object whose `name` is not a string throw a TypeError; any other non-string, non-object detects nothing |
| FormatsLemmas.DetectedValues | lib/nconf/formats/index.js:80-82 | whatever is detected is a registered format, the default accessor's value, or a non-format member |
| FormatsLemmas.ChooseExplicit | lib/nconf/formats/index.js:94-102 | an explicit formatter failing the contract throws the Error naming the file; one keeping it is returned unchanged; no warning either way |
| FormatsLemmas.ChooseByDetection | lib/nconf/formats/index.js:104-114 | a detected formatter is returned without a warning; on a miss the current default is returned unchecked, with the warning exactly when env is not `production` |
| FormatsLemmas.ChooseWarnsIff | lib/nconf/formats/index.js:104-112 | a warning is written if and only if there is no explicit formatter, detection misses and env is not `production`; at most one per call |
| FormatsLemmas.ChooseThrowsIff | lib/nconf/formats/index.js:94-99 | a call throws if and only if the explicit formatter breaks the contract, or, without one, the reference is `null` (reading `file.name` throws) or an object whose `name` is not a string (`path.extname` throws) |
| FormatsLemmas.LoadTimeEnvSilences | lib/nconf/formats/index.js:9-112 | `NODE_ENV=production` at load time silences every warning; with `NODE_ENV` unset or empty, a detection miss without an explicit formatter writes the warning |
| FormatsLemmas.ChooseNeverFalsy | lib/nconf/formats/index.js:104-114 | with `json` registered, a call that does not throw never returns a falsy value |
| FormatsLemmas.DefaultIndirection | lib/nconf/formats/index.js:43-51 | after the default is set, an undetectable file gets it; with the slot reset, it gets the `json` entry again |
| FormatsLemmas.ChooseMayReturnNonFormat | lib/nconf/formats/index.js:79-85 | `<stem>.toString` gets `Object.prototype.toString` back, which is not a format, without error or warning |
| FormatsLemmas.MessagesNameTheFile | lib/nconf/formats/index.js:97-111 | two equal error messages, or two equal warnings, name the same file text |
| FormatsLemmas.ShippedModule | lib/nconf/formats/json.js:5-10 | a shipped `<stem>.js` with both functions and no `name` is admitted under `<stem>` |
| FormatsLemmas.ShippedRegistry | lib/nconf/formats/index.js:14-38 | the shipped directory (`index.js`, `json.js`, `json5.js`) registers exactly `json` and `json5` |
| FormatsLemmas.ShippedSelection | test/stores/file-store-multi-type-test.js:21-33 | with the shipped formats, the path `<stem>.json5` and `{name: "<stem>.json5"}` both get the JSON5 format with no warning; an unknown extension gets JSON, with the warning outside production |
| FormatsLemmas.DetectIsCaseSensitive | lib/nconf/formats/index.js:76-81 | `config.JSON` does not find `json` |

## Left out

- `json.js` and `json5.js` are modelled only as two objects that have both functions and no `name`. What their `parse` and `stringify` compute belongs to `JSON` and the `json5` package, which are not part of this model. So the parse/stringify round trip is not stated.
- `fs.readdirSync` and `require` become the constructor's listing of (file name, loaded module) pairs, in the order the scan sees them. `path.join` is not modelled.
- A module that exports `null` or `undefined` makes the scan throw. This cannot be expressed, because a listed module is always a `JsObject`.
- `process.env.NODE_ENV` becomes a constructor parameter. `console.warn` becomes the ghost `warnings` log.
- Formats.Registry.constructor: a module registered under `__proto__` would replace the exports object's prototype instead of adding a key. The model adds an ordinary key.
- A truthy `name` that is not a string (a number, an object) is not modelled. The model's `name` is a string or absent.
- JsValues.ToText: `'' + file` is modelled as `[object Object]` for every object reference and as the given text for other values. A custom `toString`, and an array, which converts through `Array.prototype.toString`, are not modelled.
- Formats.Choose: a Symbol file reference is not modelled. `'' + file` throws a TypeError for a Symbol, so the source throws for an invalid explicit formatter or, outside production, on a detection miss. The model's `OtherRef` instead yields the contract Error or the default with a warning.
- Only Node's POSIX `path` is modelled. The win32 separators and drive letters are not.
- Object identity is the `id` field. Two distinct objects with the same `id` are not told apart.
- The file-store test's load, save and encryption steps run through the File store and the file system. They are not part of this model. Only its `.json5` selection is stated, in `FormatsLemmas.ShippedSelection`.
