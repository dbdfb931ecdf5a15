/** The two string searches the registry and `path.extname` rely on. */
module JsStrings {

  /** `s.indexOf(c)`: the first position of `c` in `s`, or -1 when there is none. */
  function IndexOf(s: string, c: char): (i: int)
    ensures -1 <= i < |s|
    ensures i == -1 ==> forall k :: 0 <= k < |s| ==> s[k] != c
    ensures 0 <= i ==> s[i] == c && forall k :: 0 <= k < i ==> s[k] != c
  {
    if |s| == 0 then -1
    else if s[0] == c then 0
    else
      var j := IndexOf(s[1..], c);
      if j == -1 then -1 else j + 1
  }

  /** The last position of `c` in `s[..end]`, or -1 when there is none: the
      backward search `path.extname` makes over the path. */
  function LastIndexOf(s: string, c: char, end: nat): (i: int)
    requires end <= |s|
    ensures -1 <= i < end
    ensures forall k :: i < k < end ==> s[k] != c
    ensures 0 <= i ==> s[i] == c
  {
    if end == 0 then -1
    else if s[end - 1] == c then end - 1
    else LastIndexOf(s, c, end - 1)
  }
}
