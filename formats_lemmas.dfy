/** What the registry's scan, its `default` slot, `detect` and
    `chooseFormator` guarantee, stated over the functions of `Formats`. */
module FormatsLemmas {
  import opened JsValues
  import opened Formats
  import NodePath

  // ---------------------------------------------------------------------
  // Registration
  // ---------------------------------------------------------------------

  /** "json.js" gives "json", "json5.js" gives "json5", "foo.tar.gz" gives
      "foo": a module without a truthy `name` is keyed by its file name up to
      the first '.'. */
  lemma FilePrefixOfName(stem: string, rest: string)
    requires stem != "" && forall k :: 0 <= k < |stem| ==> stem[k] != '.'
    ensures FilePrefix(stem + "." + rest) == stem
  {
    var file := stem + "." + rest;
    var r := FilePrefix(file);
    assert file[0] == stem[0] && file[|stem|] == '.';
    assert r != "";
    assert r == file[..|stem|] == stem;
  }

  /** Every registered key comes from an entry the scan admits: its file is
      neither hidden nor `index.js` and its module satisfies the format
      contract; the key is that module's name, and the module is what is
      stored. */
  lemma {:induction false} RegisteredFrom(listing: seq<(string, JsObject)>, key: string)
    requires key in Registered(listing)
    ensures exists i :: 0 <= i < |listing| && Admitted(listing[i]) &&
                        RegistrationName(listing[i].0, listing[i].1) == key &&
                        Registered(listing)[key] == listing[i].1
  {
    var n := |listing|;
    var prefix := listing[..n - 1];
    var entry := listing[n - 1];
    if !(Admitted(entry) && RegistrationName(entry.0, entry.1) == key) {
      assert key in Registered(prefix) && Registered(listing)[key] == Registered(prefix)[key];
      RegisteredFrom(prefix, key);
      var i :| 0 <= i < n - 1 && Admitted(prefix[i]) && RegistrationName(prefix[i].0, prefix[i].1) == key &&
               Registered(prefix)[key] == prefix[i].1;
      assert prefix[i] == listing[i];
    }
  }

  /** Every admitted entry is registered under its name, and when several
      share a name the last one wins. */
  lemma {:induction false} RegisteredLastWins(listing: seq<(string, JsObject)>, i: nat)
    requires i < |listing| && Admitted(listing[i])
    requires forall j :: i < j < |listing| && Admitted(listing[j]) ==>
               RegistrationName(listing[j].0, listing[j].1) != RegistrationName(listing[i].0, listing[i].1)
    ensures RegistrationName(listing[i].0, listing[i].1) in Registered(listing)
    ensures Registered(listing)[RegistrationName(listing[i].0, listing[i].1)] == listing[i].1
  {
    var n := |listing|;
    var prefix := listing[..n - 1];
    if i < n - 1 {
      assert prefix[i] == listing[i];
      forall j | i < j < |prefix| && Admitted(prefix[j])
        ensures RegistrationName(prefix[j].0, prefix[j].1) != RegistrationName(prefix[i].0, prefix[i].1)
      {
        assert prefix[j] == listing[j];
      }
      RegisteredLastWins(prefix, i);
    }
  }

  /** An entry the scan does not admit leaves no trace, wherever it stands:
      a hidden file, `index.js`, or a module without both functions, even one
      whose nested `default` export has them. */
  lemma {:induction false} InadmissibleIgnored(before: seq<(string, JsObject)>, entry: (string, JsObject),
                                               after: seq<(string, JsObject)>)
    requires !Admitted(entry)
    ensures Registered(before + [entry] + after) == Registered(before + after)
  {
    var withEntry := before + [entry] + after;
    var without := before + after;
    if after == [] {
      assert withEntry[..|withEntry| - 1] == before;
      assert without == before;
    } else {
      var n := |after|;
      assert withEntry[..|withEntry| - 1] == before + [entry] + after[..n - 1];
      assert without[..|without| - 1] == before + after[..n - 1];
      assert withEntry[|withEntry| - 1] == without[|without| - 1] == after[n - 1];
      InadmissibleIgnored(before, entry, after[..n - 1]);
    }
  }

  // ---------------------------------------------------------------------
  // The default slot
  // ---------------------------------------------------------------------

  /** The getter yields the stored value when it is truthy and otherwise the
      `json` entry as it is at the time of reading; with `json` registered it
      never yields a falsy value. */
  lemma DefaultGetter(formats: map<string, JsObject>, slot: Option<JsObject>)
    ensures DefaultFormator(formats, slot) == if slot.Some? then slot else Property(formats, slot, "json")
    ensures "json" in formats ==> DefaultFormator(formats, slot).Some?
  {
  }

  // ---------------------------------------------------------------------
  // detect
  // ---------------------------------------------------------------------

  /** "config.json5" and `{name: "config.json5"}` are looked up under
      "json5", exactly as written, and yield the format registered under it
      or nothing. */
  lemma DetectByExtension(formats: map<string, JsObject>, slot: Option<JsObject>, stem: string, ext: string)
    requires stem != "" && stem[|stem| - 1] != '/'
    requires ext != "" && forall k :: 0 <= k < |ext| ==> ext[k] != '.' && ext[k] != '/'
    requires ext != "default" && ext != "chooseFormator" && ext !in PrototypeMembers
    ensures Detect(formats, slot, PathRef(stem + "." + ext)) == Ok(if ext in formats then Some(formats[ext]) else None)
    ensures Detect(formats, slot, ObjectRef(Some(stem + "." + ext))) == Detect(formats, slot, PathRef(stem + "." + ext))
  {
    NodePath.ExtNameOfDotted(stem, ext);
    assert ("." + ext)[1..] == ext;
  }

  /** A name without '.' ("myconfigfile") detects nothing. */
  lemma DetectWithoutExtension(formats: map<string, JsObject>, slot: Option<JsObject>, name: string)
    requires forall k :: 0 <= k < |name| ==> name[k] != '.'
    ensures Detect(formats, slot, PathRef(name)) == Ok(None)
    ensures Detect(formats, slot, ObjectRef(Some(name))) == Ok(None)
  {
    NodePath.ExtNameNoDot(name);
  }

  /** A hidden file name (".json", "conf/.json") has no extension, so it
      detects nothing even when a format of that name is registered. */
  lemma DetectHiddenName(formats: map<string, JsObject>, slot: Option<JsObject>, dir: string, ext: string)
    requires dir == "" || dir[|dir| - 1] == '/'
    requires ext != "" && forall k :: 0 <= k < |ext| ==> ext[k] != '.' && ext[k] != '/'
    ensures Detect(formats, slot, PathRef(dir + "." + ext)) == Ok(None)
  {
    NodePath.ExtNameOfHidden(dir, ext);
  }

  /** Only strings and objects are inspected: `null` and an object whose
      `name` is not a string throw a TypeError, anything else detects nothing. */
  lemma DetectOtherReferences(formats: map<string, JsObject>, slot: Option<JsObject>, text: string)
    ensures Detect(formats, slot, NullRef) == Err(TypeError)
    ensures Detect(formats, slot, ObjectRef(None)) == Err(TypeError)
    ensures Detect(formats, slot, OtherRef(text)) == Ok(None)
  {
  }

  /** Whatever `detect` finds is a registered format, the value of the
      `default` accessor, or a non-format member of the exports object. */
  lemma DetectedValues(formats: map<string, JsObject>, slot: Option<JsObject>, file: FileRef, found: JsObject)
    requires Detect(formats, slot, file) == Ok(Some(found))
    ensures found in formats.Values || Some(found) == DefaultFormator(formats, slot) || !IsFormatProcessor(found)
  {
  }

  // ---------------------------------------------------------------------
  // chooseFormator
  // ---------------------------------------------------------------------

  /** A truthy explicit formatter is checked and nothing else is consulted:
      one that breaks the contract makes the call throw an Error naming the
      file, one that keeps it is returned as is; no warning either way. */
  lemma ChooseExplicit(formats: map<string, JsObject>, slot: Option<JsObject>, env: string,
                       file: FileRef, selected: JsObject)
    ensures !IsFormatProcessor(selected) ==>
              Choose(formats, slot, env, file, Some(selected)) == Choice(Err(ContractViolation(ContractMessage(file))), None)
    ensures IsFormatProcessor(selected) ==>
              Choose(formats, slot, env, file, Some(selected)) == Choice(Ok(Some(selected)), None)
  {
  }

  /** Without an explicit formatter, a detected one is returned without a
      warning; when detection misses, the current default is returned
      unchecked, with the warning unless the load-time env is "production". */
  lemma ChooseByDetection(formats: map<string, JsObject>, slot: Option<JsObject>, env: string, file: FileRef)
    ensures var detected := Detect(formats, slot, file);
            detected.Ok? && detected.value.Some? ==>
              Choose(formats, slot, env, file, None) == Choice(detected, None)
    ensures Detect(formats, slot, file) == Ok(None) ==>
              Choose(formats, slot, env, file, None) ==
              Choice(Ok(DefaultFormator(formats, slot)), if env != Production then Some(WarningMessage(file)) else None)
  {
  }

  /** A call writes a warning exactly when it falls back to the default
      outside production, and then exactly one. */
  lemma ChooseWarnsIff(formats: map<string, JsObject>, slot: Option<JsObject>, env: string,
                       file: FileRef, selected: Option<JsObject>)
    ensures Choose(formats, slot, env, file, selected).warning.Some? <==>
              selected.None? && Detect(formats, slot, file) == Ok(None) && env != Production
    ensures |Written(Choose(formats, slot, env, file, selected).warning)| <= 1
  {
  }

  /** A call throws exactly for an explicit formatter that breaks the
      contract, or, without one, for a `null` reference (reading `file.name`
      throws) or an object whose `name` is not a string (`path.extname`
      throws). */
  lemma ChooseThrowsIff(formats: map<string, JsObject>, slot: Option<JsObject>, env: string,
                        file: FileRef, selected: Option<JsObject>)
    ensures Choose(formats, slot, env, file, selected).result.Err? <==>
              (selected.Some? && !IsFormatProcessor(selected.value)) ||
              (selected.None? && Detect(formats, slot, file).Err?)
  {
  }

  /** `NODE_ENV=production` at load time silences every warning; an unset
      or empty `NODE_ENV` means "development", where a detection miss warns. */
  lemma LoadTimeEnvSilences(formats: map<string, JsObject>, slot: Option<JsObject>, nodeEnv: Option<string>,
                            file: FileRef, selected: Option<JsObject>)
    ensures nodeEnv == Some(Production) ==>
              Choose(formats, slot, LoadTimeEnv(nodeEnv), file, selected).warning.None?
    ensures (nodeEnv.None? || nodeEnv == Some("")) && selected.None? && Detect(formats, slot, file) == Ok(None) ==>
              Choose(formats, slot, LoadTimeEnv(nodeEnv), file, selected).warning == Some(WarningMessage(file))
  {
    ChooseWarnsIff(formats, slot, LoadTimeEnv(nodeEnv), file, selected);
  }

  /** With `json` registered and no error, a call never yields a falsy value. */
  lemma ChooseNeverFalsy(formats: map<string, JsObject>, slot: Option<JsObject>, env: string,
                         file: FileRef, selected: Option<JsObject>)
    requires "json" in formats
    requires Choose(formats, slot, env, file, selected).result.Ok?
    ensures Choose(formats, slot, env, file, selected).result.value.Some?
  {
  }

  /** After `formats.default = custom`, an undetectable file gets `custom`;
      after the slot is reset to a falsy value it gets the `json` entry
      again. */
  lemma DefaultIndirection(formats: map<string, JsObject>, env: string, name: string, custom: JsObject)
    requires forall k :: 0 <= k < |name| ==> name[k] != '.'
    ensures Choose(formats, Some(custom), env, PathRef(name), None).result == Ok(Some(custom))
    ensures Choose(formats, None, env, PathRef(name), None).result ==
            Ok(if "json" in formats then Some(formats["json"]) else None)
  {
    DetectWithoutExtension(formats, Some(custom), name);
    DetectWithoutExtension(formats, None, name);
  }

  /** A file whose extension names an `Object.prototype` member
      ("settings.toString") gets that member back, which is not a format:
      no error and no warning. */
  lemma ChooseMayReturnNonFormat(formats: map<string, JsObject>, slot: Option<JsObject>, env: string, stem: string)
    requires stem != "" && stem[|stem| - 1] != '/'
    requires "toString" !in formats
    ensures Choose(formats, slot, env, PathRef(stem + ".toString"), None) == Choice(Ok(Some(Intrinsic("toString"))), None)
    ensures !IsFormatProcessor(Intrinsic("toString"))
  {
    var key := "toString";
    NodePath.ExtNameOfDotted(stem, key);
    assert ("." + key)[1..] == key;
    assert FileType(stem + "." + key) == key;
    assert key in PrototypeMembers;
    assert Property(formats, slot, key) == Some(Intrinsic(key));
    assert stem + ".toString" == stem + "." + key;
  }

  /** The error message and the warning each carry the file reference
      between a fixed head and tail, so each identifies its file. */
  lemma MessagesNameTheFile(a: FileRef, b: FileRef)
    ensures ContractMessage(a) == ContractMessage(b) ==> ToText(a) == ToText(b)
    ensures WarningMessage(a) == WarningMessage(b) ==> ToText(a) == ToText(b)
  {
    if ContractMessage(a) == ContractMessage(b) {
      MiddleDetermined(ContractHead, ToText(a), ToText(b), ContractTail);
    }
    if WarningMessage(a) == WarningMessage(b) {
      MiddleDetermined(WarningHead, ToText(a), ToText(b), WarningTail);
    }
  }

  lemma MiddleDetermined(head: string, x: string, y: string, tail: string)
    requires head + x + tail == head + y + tail
    ensures x == y
  {
    var m := head + x + tail;
    assert |x| == |y|;
    assert m[|head|..|head| + |x|] == x;
    assert (head + y + tail)[|head|..|head| + |y|] == y;
  }

  // ---------------------------------------------------------------------
  // The shipped directory: index.js, json.js and json5.js
  // ---------------------------------------------------------------------

  /** The exports of json.js and json5.js: both functions, no `name`. */
  const JsonFormat := Object(1, None, true, true, None)
  const Json5Format := Object(2, None, true, true, None)
  /** The registry's own index.js, which the filter skips. */
  const IndexExports := Object(0, None, false, false, None)

  const ShippedListing := [("index.js", IndexExports), ("json.js", JsonFormat), ("json5.js", Json5Format)]
  const ShippedFormats := map["json" := JsonFormat, "json5" := Json5Format]

  /** A shipped format module `<stem>.js` with no `name` is admitted under
      `<stem>`. */
  lemma ShippedModule(stem: string, model: JsObject)
    requires stem != "" && stem != "index" && forall k :: 0 <= k < |stem| ==> stem[k] != '.'
    requires IsFormatProcessor(model) && model.name == None
    ensures Admitted((stem + ".js", model)) && RegistrationName(stem + ".js", model) == stem
  {
    var file := stem + ".js";
    assert file == stem + "." + "js";
    FilePrefixOfName(stem, "js");
    assert file[0] == stem[0];
    assert "index.js" == "index" + "." + "js";
    FilePrefixOfName("index", "js");
  }

  /** A listing of one skipped entry and two admitted ones registers the
      two under their names, the second winning a clash. */
  lemma ScanOfThree(skipped: (string, JsObject), first: (string, JsObject), second: (string, JsObject))
    requires !Admitted(skipped) && Admitted(first) && Admitted(second)
    ensures Registered([skipped, first, second]) ==
            map[RegistrationName(first.0, first.1) := first.1][RegistrationName(second.0, second.1) := second.1]
  {
    var listing := [skipped, first, second];
    assert [skipped][..0] == [];
    assert Registered([skipped]) == map[];
    assert [skipped, first][..1] == [skipped];
    assert Registered([skipped, first]) == map[RegistrationName(first.0, first.1) := first.1];
    assert listing[..2] == [skipped, first];
  }

  /** The shipped directory registers exactly `json` and `json5`. */
  lemma ShippedRegistry()
    ensures Registered(ShippedListing) == ShippedFormats
  {
    ShippedModule("json", JsonFormat);
    ShippedModule("json5", Json5Format);
    assert "json.js" == "json" + ".js" && "json5.js" == "json5" + ".js";
    ScanOfThree(ShippedListing[0], ShippedListing[1], ShippedListing[2]);
    assert ShippedListing == [ShippedListing[0], ShippedListing[1], ShippedListing[2]];
  }

  /** With the shipped formats, `{name: "<stem>.json5"}` gets the JSON5
      format without a warning, and a path whose extension names no format
      ("config.unknownext") falls back to JSON, with the warning outside
      production. */
  lemma ShippedSelection(stem: string, other: string, env: string)
    requires stem != "" && stem[|stem| - 1] != '/'
    requires other != "" && forall k :: 0 <= k < |other| ==> other[k] != '.' && other[k] != '/'
    requires other !in ShippedFormats && other != "default" && other != "chooseFormator" && other !in PrototypeMembers
    ensures Choose(ShippedFormats, None, env, ObjectRef(Some(stem + ".json5")), None) == Choice(Ok(Some(Json5Format)), None)
    ensures Choose(ShippedFormats, None, env, PathRef(stem + ".json5"), None) == Choice(Ok(Some(Json5Format)), None)
    ensures Choose(ShippedFormats, None, env, PathRef(stem + "." + other), None) ==
            Choice(Ok(Some(JsonFormat)), if env != Production then Some(WarningMessage(PathRef(stem + "." + other))) else None)
  {
    var json5 := "json5";
    assert stem + ".json5" == stem + "." + json5;
    assert json5 !in PrototypeMembers;
    DetectByExtension(ShippedFormats, None, stem, json5);
    DetectByExtension(ShippedFormats, None, stem, other);
  }

  /** Detection is case-sensitive: "config.JSON" does not find `json`. */
  lemma DetectIsCaseSensitive()
    ensures Detect(ShippedFormats, None, PathRef("config.JSON")) == Ok(None)
  {
    assert "config.JSON" == "config" + "." + "JSON";
    DetectByExtension(ShippedFormats, None, "config", "JSON");
  }
}
