/**
 * The path to a bundled asset, for the page header's images. Served over HTTP the
 * assets live at the root; opened from disk (for instance as a Neo4j Desktop graph
 * app) they live next to the bundle, under the `/dist/` directory of the page's path.
 *
 * The page's URL is read once from the browser; here its protocol and pathname are
 * parameters.
 */
module GroupsMenu {
  import opened JsStrings

  const Dist := "/dist/"

  /** `publicPathTo(append)`. */
  function PublicPathTo(protocol: string, pathname: string, append: string): (r: string)
    ensures Includes(protocol, "http") ==> r == "/" + append
    ensures !Includes(protocol, "http") ==> r == protocol + "//" + BeforeFirst(pathname, Dist) + Dist + append
  {
    if Includes(protocol, "http") then "/" + append
    else protocol + "//" + BeforeFirst(pathname, Dist) + Dist + append
  }

  /** The path always ends with the asset's own path. */
  lemma EndsWithAppend(protocol: string, pathname: string, append: string)
    ensures var r := PublicPathTo(protocol, pathname, append);
      |r| > |append| && r[|r| - |append|..] == append
  {
  }

  /** Off HTTP, the directory is the part of the pathname before its first "/dist/"; it
      contains no "/dist/" itself, and a pathname without one is used whole. */
  lemma DiskPathPrefix(protocol: string, pathname: string, append: string)
    requires !Includes(protocol, "http")
    ensures var dir := BeforeFirst(pathname, Dist);
      PublicPathTo(protocol, pathname, append) == protocol + "//" + dir + Dist + append &&
      !Includes(dir, Dist) &&
      (!Includes(pathname, Dist) ==> dir == pathname) &&
      (Includes(pathname, Dist) ==> pathname[..|dir| + |Dist|] == dir + Dist)
  {
    var dir := BeforeFirst(pathname, Dist);
    BeforeFirstHasNoSeparator(pathname, Dist);
    if Includes(pathname, Dist) {
      var rest := pathname[|dir| + |Dist|..];
      assert pathname == dir + Dist + rest;
      assert pathname[..|dir| + |Dist|] == (dir + Dist + rest)[..|dir| + |Dist|];
    }
  }
}
