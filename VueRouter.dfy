/**
 * The router of the vue template (src/router/index.js): the route table,
 * which route a path resolves to, where the page scrolls after a navigation,
 * and the guard that sets the document title before every navigation.
 */
module VueRouter {
  import opened Wrappers

  /** A route record: path pattern, name and `meta.title`. */
  datatype RouteRecord = RouteRecord(path: string, name: string, title: string)

  const CatchAll: string := "/:pathMatch(.*)*"

  /** The route table, in the order it is written. */
  const Routes: seq<RouteRecord> := [
    RouteRecord("/", "Home", "首页"),
    RouteRecord("/about", "About", "关于"),
    RouteRecord("/contact", "Contact", "联系我们"),
    RouteRecord(CatchAll, "NotFound", "页面未找到")
  ]

  /** Whether a record's pattern matches a path: static paths exactly, the catch-all anything. */
  predicate Matches(r: RouteRecord, path: string)
  {
    r.path == CatchAll || r.path == path
  }

  /**
   * The record a path resolves to: a static route when one has that path, the
   * catch-all otherwise (vue-router ranks static segments above the catch-all).
   */
  function Resolve(path: string): (i: nat)
    ensures i < |Routes| && Matches(Routes[i], path)
    ensures Routes[i].path == path || (Routes[i].path == CatchAll && forall j :: 0 <= j < |Routes| - 1 ==> Routes[j].path != path)
  {
    if path == "/" then 0
    else if path == "/about" then 1
    else if path == "/contact" then 2
    else 3
  }

  /** Names identify routes: no two records share a name or a path. */
  lemma RoutesDistinct()
    ensures forall i, j :: 0 <= i < j < |Routes| ==> Routes[i].name != Routes[j].name && Routes[i].path != Routes[j].path
  {
  }

  /** Only the catch-all, last in the table, shows the not-found page. */
  lemma NotFoundOnlyForUnknownPaths(path: string)
    ensures Routes[Resolve(path)].name == "NotFound" <==> path !in {"/", "/about", "/contact"}
  {
  }

  /** A scroll position remembered by the browser's history. */
  datatype Position = Position(left: int, top: int)

  /** Where `scrollBehavior` sends the page. */
  datatype Scroll = Restore(pos: Position) | Anchor(selector: string, smooth: bool) | TopLeft(top: int, left: int)

  /**
   * `scrollBehavior(to, from, savedPosition)`: a saved position (back/forward)
   * wins, then a non-empty hash scrolls smoothly to that element, else the
   * top left corner.
   */
  function ScrollBehavior(saved: Option<Position>, hash: string): (s: Scroll)
    ensures s.Restore? <==> saved.Some?
    ensures s.Restore? ==> s.pos == saved.value
    ensures s.Anchor? <==> saved.None? && hash != ""
    ensures s.Anchor? ==> s.selector == hash && s.smooth
    ensures s.TopLeft? ==> s.top == 0 && s.left == 0
  {
    if saved.Some? then Restore(saved.value)
    else if hash != "" then Anchor(hash, true)
    else TopLeft(0, 0)
  }

  /** The placeholder left in the title; the tool never substitutes it. */
  const ProjectPlaceholder: string := "{% projectName %}"

  /** The title `beforeEach` sets for a route whose `meta.title` is `title` (None when absent). */
  function PageTitle(title: Option<string>): (t: string)
    ensures |t| >= |ProjectPlaceholder| && t[|t| - |ProjectPlaceholder|..] == ProjectPlaceholder
    ensures t == ProjectPlaceholder <==> title.None? || title.value == ""
  {
    if title.Some? && title.value != "" then title.value + " - " + ProjectPlaceholder else ProjectPlaceholder
  }

  /** The page title gives back the route title: drop the ` - ` and the placeholder. */
  lemma PageTitleRecoversTitle(title: string)
    requires title != ""
    ensures var t := PageTitle(Some(title));
            |t| == |title| + 3 + |ProjectPlaceholder| && t[..|title|] == title
            && t[|title|..|title| + 3] == " - "
  {
    var t := PageTitle(Some(title));
    assert t == title + (" - " + ProjectPlaceholder);
  }

  /** Every route has a title, so every navigation shows `<title> - {% projectName %}`. */
  lemma EveryPathTitled(path: string)
    ensures var r := Routes[Resolve(path)];
            r.title != "" && PageTitle(Some(r.title)) == r.title + " - " + ProjectPlaceholder
  {
  }

  /** The browser document whose title the guard updates. */
  class Document {
    var title: string

    constructor (title: string)
      ensures this.title == title
    {
      this.title := title;
    }
  }

  /**
   * `router.beforeEach`: set the document title from the target route, then
   * call `next()` so the navigation always proceeds.
   */
  method BeforeEach(doc: Document, to: RouteRecord) returns (proceed: bool)
    modifies doc
    ensures doc.title == PageTitle(Some(to.title))
    ensures proceed
  {
    doc.title := if to.title != "" then to.title + " - " + ProjectPlaceholder else ProjectPlaceholder;
    proceed := true;
  }
}
