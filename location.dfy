/**
 * The fragment: the window location's pathname after the router's base.
 * The window is given as the pathname of its location, or None when the
 * router has no window (outside a browser, unless one is mocked).
 */
module Location {
  import opened Wrappers
  import opened Values

  /** `s.substr(start)` for a start that is not negative: empty from the end on. */
  function Substr(s: string, start: nat): (r: string)
    ensures start <= |s| ==> s == s[..start] + r
    ensures start >= |s| ==> r == ""
  {
    if start >= |s| then "" else s[start..]
  }

  /**
   * `getFragment()`: fails without a window; otherwise drops the first
   * `|base|` characters of the pathname, whatever they are.
   */
  function GetFragment(window: Option<string>, base: string): (r: Result<string, RouterError>)
    ensures r.Failure? <==> window.None?
    ensures r.Failure? ==> r.error == MissingWindow
    ensures r.Success? && |base| <= |window.value| ==>
              |r.value| == |window.value| - |base| && window.value == window.value[..|base|] + r.value
    ensures r.Success? && |base| > |window.value| ==> r.value == ""
  {
    match window
    case None => Failure(MissingWindow)
    case Some(pathname) => Success(Substr(pathname, |base|))
  }

  /** A pathname that starts with the base gives back the rest of it. */
  lemma FragmentAfterBase(base: string, rest: string)
    ensures GetFragment(Some(base + rest), base) == Success(rest)
  {
  }

  /** With the default base '' the fragment is the whole pathname. */
  lemma FragmentWithEmptyBase(pathname: string)
    ensures GetFragment(Some(pathname), "") == Success(pathname)
  {
  }

  /** The pathname is not checked against the base: only the base's length matters. */
  lemma FragmentIgnoresBaseText(pathname: string, base: string, other: string)
    requires |other| == |base|
    ensures GetFragment(Some(pathname), base) == GetFragment(Some(pathname), other)
  {
  }
}
