/**
 * URIs as the schema graph records them: the original text and whether it
 * parsed as an absolute URI (one with a scheme).
 */
module Uris {
  import opened Wrappers

  datatype Uri = Uri(original: string, isAbsolute: bool)

  predicate IsSchemeStart(c: char)
  {
    'a' <= c <= 'z' || 'A' <= c <= 'Z'
  }

  predicate IsSchemeChar(c: char)
  {
    IsSchemeStart(c) || '0' <= c <= '9' || c == '+' || c == '-' || c == '.'
  }

  /** The text starts with a scheme name followed by a colon. */
  predicate HasScheme(s: string)
  {
    exists i :: 0 < i < |s| && s[i] == ':' && IsSchemeStart(s[0]) &&
      forall k :: 0 < k < i ==> IsSchemeChar(s[k])
  }

  /** Reading a URI of either kind. */
  function ParseRelativeOrAbsolute(s: string): (u: Uri)
    ensures u.original == s && (u.isAbsolute <==> HasScheme(s))
  {
    Uri(s, HasScheme(s))
  }

  /** Reading a URI that must be absolute; relative text is a format error. */
  function ParseAbsolute(s: string): (u: Option<Uri>)
    ensures u.Some? <==> HasScheme(s)
    ensures u.Some? ==> u.value == Uri(s, true)
  {
    if HasScheme(s) then Some(Uri(s, true)) else None
  }

  /** The position of the first '#', or the length of the text when there is none. */
  function HashIndex(s: string): (i: nat)
    ensures i <= |s|
    ensures i < |s| ==> s[i] == '#'
    ensures forall k :: 0 <= k < i ==> s[k] != '#'
  {
    if |s| == 0 then 0
    else if s[0] == '#' then 0
    else 1 + HashIndex(s[1..])
  }

  /** The URI text without its fragment. */
  function WithoutFragment(s: string): (r: string)
    ensures r <= s && '#' !in r
    ensures |r| < |s| ==> s[|r|] == '#'
  {
    s[..HashIndex(s)]
  }
}
