/** `path.extname` of Node's POSIX path module, which `detect` applies to a
    file reference. Only '/' separates path segments. */
module NodePath {
  import opened JsStrings

  /** Where `p[..n]` ends once the run of '/' at its end is dropped:
      `extname` ignores trailing separators. */
  function TrimmedEnd(p: string, n: nat): (end: nat)
    requires n <= |p|
    ensures end <= n
    ensures end == 0 || p[end - 1] != '/'
    ensures forall k :: end <= k < n ==> p[k] == '/'
  {
    if n > 0 && p[n - 1] == '/' then TrimmedEnd(p, n - 1) else n
  }

  /** `path.extname(p)`. With trailing '/' dropped, the last segment is the
      text after the last '/'; the extension is that segment's text from its
      last '.' to the end. It is empty when the segment has no '.', when its
      last '.' is its first character (".json"), or when the segment is "..". */
  function ExtName(p: string): (e: string)
    ensures e != "" ==> e[0] == '.'
    ensures forall k :: 0 < k < |e| ==> e[k] != '.' && e[k] != '/'
    ensures e != "" ==> var end := TrimmedEnd(p, |p|); |e| <= end && e == p[end - |e|..end]
  {
    var end := TrimmedEnd(p, |p|);
    var slash := LastIndexOf(p, '/', end);  // the last segment is p[slash + 1..end]
    var dot := LastIndexOf(p, '.', end);
    if dot <= slash + 1 then ""
    else if end == slash + 3 && p[slash + 1] == '.' && p[slash + 2] == '.' then ""
    else p[dot..end]
  }

  /** A path without any '.' has no extension ("myconfigfile"). */
  lemma ExtNameNoDot(p: string)
    requires forall k :: 0 <= k < |p| ==> p[k] != '.'
    ensures ExtName(p) == ""
  {
  }

  /** "config.json5", "/etc/app/config.json5": a non-empty stem that does not
      end in '/', then '.', then a non-empty name with no '.' or '/', has that
      name as its extension. */
  lemma ExtNameOfDotted(stem: string, ext: string)
    requires stem != "" && stem[|stem| - 1] != '/'
    requires ext != "" && forall k :: 0 <= k < |ext| ==> ext[k] != '.' && ext[k] != '/'
    ensures ExtName(stem + "." + ext) == "." + ext
  {
    var p := stem + "." + ext;
    assert p[|p| - 1] == ext[|ext| - 1];
    assert TrimmedEnd(p, |p|) == |p|;
    assert p[|stem|] == '.' && p[|stem| - 1] == stem[|stem| - 1];
    assert forall k :: |stem| < k < |p| ==> p[k] == ext[k - |stem| - 1];
    var dot := LastIndexOf(p, '.', |p|);
    var slash := LastIndexOf(p, '/', |p|);
    assert dot == |stem|;
    assert slash < |stem| - 1;
    assert p[dot..] == "." + ext;
  }

  /** ".json", "/etc/.json": a last segment whose only '.' is its first
      character has no extension. */
  lemma ExtNameOfHidden(dir: string, ext: string)
    requires dir == "" || dir[|dir| - 1] == '/'
    requires ext != "" && forall k :: 0 <= k < |ext| ==> ext[k] != '.' && ext[k] != '/'
    ensures ExtName(dir + "." + ext) == ""
  {
    var p := dir + "." + ext;
    assert p[|p| - 1] == ext[|ext| - 1];
    assert TrimmedEnd(p, |p|) == |p|;
    assert p[|dir|] == '.' && (dir != "" ==> p[|dir| - 1] == '/');
    assert forall k :: |dir| < k < |p| ==> p[k] == ext[k - |dir| - 1];
    assert LastIndexOf(p, '.', |p|) == |dir|;
    assert LastIndexOf(p, '/', |p|) == |dir| - 1;
  }
}
