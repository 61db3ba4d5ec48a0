/**
 * The navigation highlight of the site header
 * (frontend/src/components/layout/Header.jsx): a link is active when the
 * current path is its path or, except for the home link, starts with it.
 */
module Header {
  import opened Text

  function IsActive(path: string, pathname: string): (active: bool)
    ensures pathname == path ==> active
    ensures path == "/" ==> (active <==> pathname == "/")
    ensures path != "/" ==> (active <==> StartsWith(pathname, path))
    ensures !active ==> pathname != path && !(path != "/" && StartsWith(pathname, path))
  {
    assert StartsWith(path, path) by { assert path[..|path|] == path; }
    pathname == path || (path != "/" && StartsWith(pathname, path))
  }

  /** The prefix test is on raw characters: `/cart` is active on `/cartography`. */
  lemma RawPrefix()
    ensures IsActive("/cart", "/cartography")
  {
    assert "/cartography"[..5] == "/cart";
  }

  /** The home link is not active on any other page, though every path starts with `/`. */
  lemma HomeOnlyOnHome(pathname: string)
    requires pathname != "/"
    ensures !IsActive("/", pathname)
  {
  }
}
