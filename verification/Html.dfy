/** What `crawl_url` makes of an HTML page before it looks at text and links: scripts, styles, navigation,
    headers and footers are cut out of the tree. */
module Html {
  import opened Basics
  import opened Crawl

  datatype Node =
    | Leaf(text: string)
    | Element(tag: string, href: Option<string>, children: seq<Node>)

  const BOILERPLATE := {"script", "style", "noscript", "footer", "nav", "header"}

  /** What is left after `decompose`. */
  function Kept(nodes: seq<Node>): seq<Node> {
    if nodes == [] then [] else KeptOf(nodes[0]) + Kept(nodes[1..])
  }

  function KeptOf(n: Node): seq<Node> {
    match n
    case Leaf(_) => [n]
    case Element(tag, href, children) => if tag in BOILERPLATE then [] else [Element(tag, href, Kept(children))]
  }

  /** find_all("a", href=True), in document order. */
  function Anchors(nodes: seq<Node>): seq<string> {
    if nodes == [] then [] else AnchorsOf(nodes[0]) + Anchors(nodes[1..])
  }

  function AnchorsOf(n: Node): seq<string> {
    match n
    case Leaf(_) => []
    case Element(tag, href, children) => (if tag == "a" && href.Some? then [href.value] else []) + Anchors(children)
  }

  /** The pieces of text, in document order. */
  function Texts(nodes: seq<Node>): seq<string> {
    if nodes == [] then [] else TextsOf(nodes[0]) + Texts(nodes[1..])
  }

  function TextsOf(n: Node): seq<string> {
    match n
    case Leaf(text) => [text]
    case Element(_, _, children) => Texts(children)
  }

  // ---------------------------------------------------------------------------------------------
  // What is shown
  // ---------------------------------------------------------------------------------------------

  /** A way down the tree: the position to take at each level. */
  predicate Leads(nodes: seq<Node>, path: seq<nat>) {
    && path != [] && path[0] < |nodes|
    && (|path| > 1 ==> nodes[path[0]].Element? && Leads(nodes[path[0]].children, path[1..]))
  }

  function At(nodes: seq<Node>, path: seq<nat>): Node
    requires Leads(nodes, path)
  {
    if |path| == 1 then nodes[path[0]] else At(nodes[path[0]].children, path[1..])
  }

  predicate Boilerplate(n: Node) {
    n.Element? && (n.tag == "script" || n.tag == "style" || n.tag == "noscript" || n.tag == "footer" ||
                   n.tag == "nav" || n.tag == "header")
  }

  /** No element on the way is boilerplate, the last included. */
  predicate Clear(nodes: seq<Node>, path: seq<nat>)
    requires Leads(nodes, path)
  {
    !Boilerplate(nodes[path[0]]) && (|path| > 1 ==> Clear(nodes[path[0]].children, path[1..]))
  }

  predicate IsAnchor(n: Node, href: string) {
    n.Element? && n.tag == "a" && n.href == Some(href)
  }

  /** An anchor of the page with this `href` that is in no boilerplate element. */
  ghost predicate Shown(nodes: seq<Node>, href: string) {
    exists path :: Leads(nodes, path) && Clear(nodes, path) && IsAnchor(At(nodes, path), href)
  }

  /** The way through a forest goes through its first tree or through the others. */
  lemma ShownFirst(nodes: seq<Node>, href: string)
    requires nodes != []
    ensures Shown(nodes, href) <==> ShownIn(nodes[0], href) || Shown(nodes[1..], href)
  {
    if Shown(nodes, href) {
      var path :| Leads(nodes, path) && Clear(nodes, path) && IsAnchor(At(nodes, path), href);
      if path[0] == 0 {
        if |path| > 1 {
          var deep := path[1..];
          assert Leads(nodes[0].children, deep) && Clear(nodes[0].children, deep)
                 && IsAnchor(At(nodes[0].children, deep), href);
        }
      } else {
        var rest := [path[0] - 1] + path[1..];
        assert nodes[1..][rest[0]] == nodes[path[0]] && rest[1..] == path[1..];
        assert Leads(nodes[1..], rest) && Clear(nodes[1..], rest) && IsAnchor(At(nodes[1..], rest), href);
      }
    }
    if ShownIn(nodes[0], href) {
      ShownHere(nodes, href);
    }
    if Shown(nodes[1..], href) {
      var path :| Leads(nodes[1..], path) && Clear(nodes[1..], path) && IsAnchor(At(nodes[1..], path), href);
      var longer := [path[0] + 1] + path[1..];
      assert nodes[longer[0]] == nodes[1..][path[0]] && longer[1..] == path[1..];
      assert Leads(nodes, longer) && Clear(nodes, longer) && IsAnchor(At(nodes, longer), href);
    }
  }

  /** The tree of `n` shows the anchor. */
  ghost predicate ShownIn(n: Node, href: string) {
    !Boilerplate(n) && (IsAnchor(n, href) || (n.Element? && Shown(n.children, href)))
  }

  lemma ShownHere(nodes: seq<Node>, href: string)
    requires nodes != [] && ShownIn(nodes[0], href)
    ensures Shown(nodes, href)
  {
    if IsAnchor(nodes[0], href) {
      var path: seq<nat> := [0];
      assert Leads(nodes, path) && Clear(nodes, path) && IsAnchor(At(nodes, path), href);
    } else {
      var deep :| Leads(nodes[0].children, deep) && Clear(nodes[0].children, deep)
                  && IsAnchor(At(nodes[0].children, deep), href);
      var path: seq<nat> := [0] + deep;
      assert path[1..] == deep;
      assert Leads(nodes, path) && Clear(nodes, path) && IsAnchor(At(nodes, path), href);
    }
  }

  lemma NothingShown(href: string)
    ensures !Shown([], href)
  {
    assert forall path :: !Leads([], path);
  }

  lemma AnchorsJoin(n: Node, nodes: seq<Node>)
    ensures Anchors(KeptOf(n) + nodes) == Anchors(KeptOf(n)) + Anchors(nodes)
  {
    if KeptOf(n) == [] {
      assert KeptOf(n) + nodes == nodes;
    } else {
      var k := KeptOf(n)[0];
      assert KeptOf(n) == [k] && (KeptOf(n) + nodes)[1..] == nodes && [k][1..] == [];
      assert Anchors([k]) == AnchorsOf(k) + [] == AnchorsOf(k);
    }
  }

  /** The anchors that are collected are exactly those that are in no boilerplate element. */
  lemma {:induction false} KeptAnchorsAreShown(nodes: seq<Node>, href: string)
    ensures href in Anchors(Kept(nodes)) <==> Shown(nodes, href)
  {
    if nodes == [] {
      NothingShown(href);
    } else {
      ShownFirst(nodes, href);
      KeptAnchorsIn(nodes[0], href);
      KeptAnchorsAreShown(nodes[1..], href);
      AnchorsJoin(nodes[0], Kept(nodes[1..]));
    }
  }

  lemma {:induction false} KeptAnchorsIn(n: Node, href: string)
    ensures href in Anchors(KeptOf(n)) <==> ShownIn(n, href)
  {
    if n.Element? {
      KeptAnchorsAreShown(n.children, href);
      if n.tag !in BOILERPLATE {
        var k := Element(n.tag, n.href, Kept(n.children));
        assert KeptOf(n) == [k] && [k][1..] == [];
        assert Anchors([k]) == AnchorsOf(k) + [] == AnchorsOf(k);
      }
    }
  }

  // ---------------------------------------------------------------------------------------------
  // The text that is shown
  // ---------------------------------------------------------------------------------------------

  /** `p` comes before `q` in document order, neither being on the way to the other. */
  predicate Before(p: seq<nat>, q: seq<nat>) {
    p != [] && q != [] && (p[0] < q[0] || (p[0] == q[0] && Before(p[1..], q[1..])))
  }

  /** The piece of text at the end of the way, with no boilerplate element on it. */
  ghost predicate ShownText(nodes: seq<Node>, path: seq<nat>, text: string) {
    Leads(nodes, path) && Clear(nodes, path) && At(nodes, path) == Leaf(text)
  }

  /** `texts` are the pieces at the ends of `ways`, in document order and so each once, and there are no
      others. */
  ghost predicate Listing(nodes: seq<Node>, ways: seq<seq<nat>>, texts: seq<string>) {
    && |ways| == |texts| && (forall i :: 0 <= i < |ways| ==> ShownText(nodes, ways[i], texts[i]))
    && (forall i, j :: 0 <= i < j < |ways| ==> Before(ways[i], ways[j]))
    && forall path, text :: ShownText(nodes, path, text) ==> path in ways
  }

  /** The pieces of text that the page shows, in document order. */
  ghost predicate ShownTexts(nodes: seq<Node>, texts: seq<string>) {
    exists ways :: Listing(nodes, ways, texts)
  }

  /** The ways into the first tree, and those into the others. */
  function Down(ways: seq<seq<nat>>): seq<seq<nat>> {
    seq(|ways|, i requires 0 <= i < |ways| => [0] + ways[i])
  }

  function Along(ways: seq<seq<nat>>): seq<seq<nat>> {
    seq(|ways|, i requires 0 <= i < |ways| => if ways[i] == [] then [] else [ways[i][0] + 1] + ways[i][1..])
  }

  lemma DownShows(nodes: seq<Node>, path: seq<nat>, text: string)
    requires nodes != [] && nodes[0].Element? && !Boilerplate(nodes[0])
    ensures ShownText(nodes[0].children, path, text) <==> ShownText(nodes, [0] + path, text) && path != []
  {
    assert ([0] + path)[1..] == path;
  }

  lemma AlongShows(nodes: seq<Node>, path: seq<nat>, text: string)
    requires nodes != [] && path != []
    ensures ShownText(nodes[1..], path, text) <==> ShownText(nodes, [path[0] + 1] + path[1..], text)
  {
    var longer := [path[0] + 1] + path[1..];
    assert longer[1..] == path[1..];
    if path[0] < |nodes| - 1 {
      assert nodes[1..][path[0]] == nodes[longer[0]];
    }
  }

  /** The ways to the pieces that the first tree shows. */
  ghost predicate FirstTree(nodes: seq<Node>, ways: seq<seq<nat>>, texts: seq<string>) {
    && |ways| == |texts| && (forall i :: 0 <= i < |ways| ==> ShownText(nodes, ways[i], texts[i]) && ways[i][0] == 0)
    && (forall i, j :: 0 <= i < j < |ways| ==> Before(ways[i], ways[j]))
    && forall path, text :: ShownText(nodes, path, text) && path[0] == 0 ==> path in ways
  }

  lemma LeafListing(nodes: seq<Node>) returns (ways: seq<seq<nat>>)
    requires nodes != [] && (nodes[0].Leaf? || Boilerplate(nodes[0]))
    ensures FirstTree(nodes, ways, Texts(KeptOf(nodes[0])))
  {
    if nodes[0].Leaf? {
      ways := [[0]];
      assert [nodes[0]][1..] == [] && TextsOf(nodes[0]) + [] == [nodes[0].text];
      assert Texts(KeptOf(nodes[0])) == [nodes[0].text];
      forall path, text | ShownText(nodes, path, text) && path[0] == 0 ensures path in ways {
        assert path == [0];
      }
    } else {
      ways := [];
    }
  }

  lemma TreeListing(nodes: seq<Node>, inner: seq<seq<nat>>, texts: seq<string>)
    requires nodes != [] && nodes[0].Element? && !Boilerplate(nodes[0])
    requires Listing(nodes[0].children, inner, texts)
    ensures FirstTree(nodes, Down(inner), texts)
  {
    var ways := Down(inner);
    forall i | 0 <= i < |ways| ensures ShownText(nodes, ways[i], texts[i]) && ways[i][0] == 0 {
      DownShows(nodes, inner[i], texts[i]);
    }
    forall i, j | 0 <= i < j < |ways| ensures Before(ways[i], ways[j]) {
      assert ways[i][1..] == inner[i] && ways[j][1..] == inner[j];
    }
    forall path, text | ShownText(nodes, path, text) && path[0] == 0 ensures path in ways {
      assert |path| > 1 && path == [0] + path[1..];
      DownShows(nodes, path[1..], text);
      var i :| 0 <= i < |inner| && inner[i] == path[1..];
      assert ways[i] == path;
    }
  }

  /** The ways to the pieces that the other trees show. */
  ghost predicate OtherTrees(nodes: seq<Node>, ways: seq<seq<nat>>, texts: seq<string>) {
    && |ways| == |texts| && (forall i :: 0 <= i < |ways| ==> ShownText(nodes, ways[i], texts[i]) && ways[i][0] > 0)
    && (forall i, j :: 0 <= i < j < |ways| ==> Before(ways[i], ways[j]))
    && forall path, text :: ShownText(nodes, path, text) && path[0] > 0 ==> path in ways
  }

  lemma AlongBefore(p: seq<nat>, q: seq<nat>)
    requires p != [] && q != [] && Before(p, q)
    ensures Before([p[0] + 1] + p[1..], [q[0] + 1] + q[1..])
  {
    assert ([p[0] + 1] + p[1..])[1..] == p[1..] && ([q[0] + 1] + q[1..])[1..] == q[1..];
  }

  lemma AlongListing(nodes: seq<Node>, rest: seq<seq<nat>>, texts: seq<string>)
    requires nodes != [] && Listing(nodes[1..], rest, texts)
    ensures OtherTrees(nodes, Along(rest), texts)
  {
    var ways := Along(rest);
    forall i | 0 <= i < |ways| ensures ShownText(nodes, ways[i], texts[i]) && ways[i][0] > 0 {
      AlongShows(nodes, rest[i], texts[i]);
    }
    forall i, j | 0 <= i < j < |ways| ensures Before(ways[i], ways[j]) {
      AlongBefore(rest[i], rest[j]);
    }
    forall path, text | ShownText(nodes, path, text) && path[0] > 0 ensures path in ways {
      AlongReaches(nodes, rest, texts, path, text);
    }
  }

  lemma AlongReaches(nodes: seq<Node>, rest: seq<seq<nat>>, texts: seq<string>, path: seq<nat>, text: string)
    requires nodes != [] && Listing(nodes[1..], rest, texts) && ShownText(nodes, path, text) && path[0] > 0
    ensures path in Along(rest)
  {
    var shorter := [path[0] - 1] + path[1..];
    assert shorter[1..] == path[1..] && [shorter[0] + 1] + shorter[1..] == path;
    AlongShows(nodes, shorter, text);
    var i :| 0 <= i < |rest| && rest[i] == shorter;
    assert Along(rest)[i] == path;
  }

  lemma ForestListing(nodes: seq<Node>, first: seq<seq<nat>>, a: seq<string>, others: seq<seq<nat>>, b: seq<string>)
    requires FirstTree(nodes, first, a) && OtherTrees(nodes, others, b)
    ensures Listing(nodes, first + others, a + b)
  {
    var ways, texts := first + others, a + b;
    forall i | 0 <= i < |ways| ensures ShownText(nodes, ways[i], texts[i]) {
      if i >= |first| {
        assert ways[i] == others[i - |first|] && texts[i] == b[i - |first|];
      }
    }
    forall i, j | 0 <= i < j < |ways| ensures Before(ways[i], ways[j]) {
      if i >= |first| {
        assert Before(others[i - |first|], others[j - |first|]);
      } else if j >= |first| {
        assert first[i][0] == 0 && others[j - |first|][0] > 0;
      }
    }
    forall path, text | ShownText(nodes, path, text) ensures path in ways {
      assert path in first || path in others;
    }
  }

  lemma TextsJoin(n: Node, nodes: seq<Node>)
    ensures Texts(KeptOf(n) + nodes) == Texts(KeptOf(n)) + Texts(nodes)
  {
    if KeptOf(n) == [] {
      assert KeptOf(n) + nodes == nodes;
    } else {
      var k := KeptOf(n)[0];
      assert KeptOf(n) == [k] && (KeptOf(n) + nodes)[1..] == nodes && [k][1..] == [];
      assert Texts([k]) == TextsOf(k) + [] == TextsOf(k);
    }
  }

  /** The pieces of text that are collected are exactly those in no boilerplate element, each once and in
      document order. */
  lemma {:induction false} KeptTextsAreShown(nodes: seq<Node>) returns (ways: seq<seq<nat>>)
    ensures Listing(nodes, ways, Texts(Kept(nodes)))
  {
    if nodes == [] {
      ways := [];
      assert forall path: seq<nat> :: !Leads(nodes, path);
    } else {
      var n := nodes[0];
      var first;
      if n.Leaf? || Boilerplate(n) {
        first := LeafListing(nodes);
      } else {
        var inner := KeptTextsAreShown(n.children);
        TreeListing(nodes, inner, Texts(Kept(n.children)));
        first := Down(inner);
        var k := Element(n.tag, n.href, Kept(n.children));
        assert KeptOf(n) == [k] && [k][1..] == [];
        assert Texts([k]) == TextsOf(k) + [] == TextsOf(k);
      }
      var rest := KeptTextsAreShown(nodes[1..]);
      AlongListing(nodes, rest, Texts(Kept(nodes[1..])));
      ForestListing(nodes, first, Texts(KeptOf(n)), Along(rest), Texts(Kept(nodes[1..])));
      TextsJoin(n, Kept(nodes[1..]));
      ways := first + Along(rest);
    }
  }

  lemma {:induction false} BeforeIsStrict(p: seq<nat>, q: seq<nat>)
    requires Before(p, q)
    ensures p != q && !Before(q, p)
  {
    if p[0] == q[0] {
      BeforeIsStrict(p[1..], q[1..]);
    }
  }

  lemma {:induction false} SortedIsUnique(a: seq<seq<nat>>, b: seq<seq<nat>>)
    requires forall i, j :: 0 <= i < j < |a| ==> Before(a[i], a[j])
    requires forall i, j :: 0 <= i < j < |b| ==> Before(b[i], b[j])
    requires forall p :: p in a <==> p in b
    ensures a == b
  {
    assert a != [] ==> a[0] in b;
    assert b != [] ==> b[0] in a;
    if a != [] {
      SameFirst(a, b);
      forall p ensures p in a[1..] <==> p in b[1..] {
        TailOf(a, p);
        TailOf(b, p);
      }
      SortedIsUnique(a[1..], b[1..]);
      assert a == [a[0]] + a[1..] && b == [b[0]] + b[1..];
    }
  }

  lemma SameFirst(a: seq<seq<nat>>, b: seq<seq<nat>>)
    requires a != [] && b != [] && a[0] in b && b[0] in a
    requires forall i, j :: 0 <= i < j < |a| ==> Before(a[i], a[j])
    requires forall i, j :: 0 <= i < j < |b| ==> Before(b[i], b[j])
    ensures a[0] == b[0]
  {
    if Before(b[0], a[0]) {
      BeforeIsStrict(b[0], a[0]);
    }
  }

  lemma TailOf(a: seq<seq<nat>>, p: seq<nat>)
    requires a != [] && forall i, j :: 0 <= i < j < |a| ==> Before(a[i], a[j])
    ensures p in a[1..] <==> p in a && p != a[0]
  {
    forall i | 0 < i < |a| ensures a[i] != a[0] {
      BeforeIsStrict(a[0], a[i]);
    }
  }

  /** The pieces are determined by the page. */
  lemma ShownTextsAreUnique(nodes: seq<Node>, a: seq<string>, b: seq<string>)
    requires ShownTexts(nodes, a) && ShownTexts(nodes, b)
    ensures a == b
  {
    var p :| Listing(nodes, p, a);
    var q :| Listing(nodes, q, b);
    forall way ensures way in p <==> way in q {
      if way in p {
        var i :| 0 <= i < |p| && p[i] == way;
        assert ShownText(nodes, way, a[i]);
      }
      if way in q {
        var i :| 0 <= i < |q| && q[i] == way;
        assert ShownText(nodes, way, b[i]);
      }
    }
    SortedIsUnique(p, q);
    forall i | 0 <= i < |a| ensures a[i] == b[i] {
      assert ShownText(nodes, p[i], a[i]) && ShownText(nodes, q[i], b[i]);
    }
  }

  // ---------------------------------------------------------------------------------------------
  // The crawl of a site of HTML pages
  // ---------------------------------------------------------------------------------------------

  datatype Reply = NoReply | Reply(status: int, html: bool, body: seq<Node>)

  /** `joined` puts the pieces of a text together and collapses its white space. */
  datatype Site = Site(
    allowed: Url -> bool,
    fetch: Url -> Reply,
    resolve: (Url, string) -> Option<Url>,
    host: Url -> string,
    sha: string -> string,
    joined: seq<string> -> string)

  /** What the crawl sees of a reply. */
  function Seen(site: Site, r: Reply): Response {
    match r
    case NoReply => Failed
    case Reply(status, html, body) => Answer(status, html, site.joined(Texts(Kept(body))), Anchors(Kept(body)))
  }

  function WebOf(site: Site): Web {
    Web(site.allowed, u => Seen(site, site.fetch(u)), site.resolve, site.host, site.sha)
  }

  predicate IsPage(r: Reply) {
    r.Reply? && r.status == 200 && r.html
  }

  /** The page shows an anchor that leads to `v`, on the root's host. */
  ghost predicate ShowsLink(site: Site, root: Url, u: Url, v: Url) {
    site.allowed(u) && IsPage(site.fetch(u)) && site.host(v) == site.host(root) &&
    exists href :: Shown(site.fetch(u).body, href) && site.resolve(u, href) == Some(v)
  }

  /** The link graph that the crawl explores is that of the links shown outside navigation, headers and
      footers. */
  lemma LinksAreShown(site: Site, root: Url, u: Url, v: Url)
    ensures v in Links(WebOf(site), root, u) <==> ShowsLink(site, root, u, v)
  {
    var w := WebOf(site);
    if site.allowed(u) && IsPage(site.fetch(u)) {
      var body := site.fetch(u).body;
      assert w.get(u).anchors == Anchors(Kept(body));
      if v in Links(w, root, u) {
        var a :| a in w.get(u).anchors && OnHost(w, root, w.resolve(u, a)) && w.resolve(u, a).value == v;
        KeptAnchorsAreShown(body, a);
      }
      if ShowsLink(site, root, u, v) {
        var href :| Shown(body, href) && site.resolve(u, href) == Some(v);
        KeptAnchorsAreShown(body, href);
        assert OnHost(w, root, w.resolve(u, href));
      }
    }
  }

  /** The URL is at most `k` shown links away from the root. */
  ghost predicate Reachable(site: Site, root: Url, u: Url, k: nat)
    decreases k
  {
    if k == 0 then u == root
    else Reachable(site, root, u, k - 1) || exists v :: Reachable(site, root, v, k - 1) && ShowsLink(site, root, v, u)
  }

  lemma {:induction false} WithinIsReachable(site: Site, root: Url, k: nat)
    ensures forall u :: u in Within(WebOf(site), root, k) <==> Reachable(site, root, u, k)
  {
    if k > 0 {
      WithinIsReachable(site, root, k - 1);
      forall u, v ensures u in Links(WebOf(site), root, v) <==> ShowsLink(site, root, v, u) {
        LinksAreShown(site, root, v, u);
      }
    }
  }

  /** Pairwise different, allowed, and in the order of their exact distances over shown links. */
  ghost predicate InOrder(site: Site, root: Url, requested: seq<Url>, dist: seq<nat>) {
    && |dist| == |requested|
    && (forall i, j :: 0 <= i < j < |requested| ==> requested[i] != requested[j] && dist[i] <= dist[j])
    && forall i :: 0 <= i < |requested| ==>
         && site.allowed(requested[i]) && Reachable(site, root, requested[i], dist[i])
         && (dist[i] > 0 ==> !Reachable(site, root, requested[i], dist[i] - 1))
  }

  lemma BreadthFirstIsInOrder(site: Site, root: Url, requested: seq<Url>, dist: seq<nat>)
    requires BreadthFirst(WebOf(site), root, requested, dist)
    ensures InOrder(site, root, requested, dist)
  {
    forall i | 0 <= i < |requested|
      ensures Reachable(site, root, requested[i], dist[i])
      ensures dist[i] > 0 ==> !Reachable(site, root, requested[i], dist[i] - 1)
    {
      assert AtDistance(WebOf(site), root, requested[i], dist[i]);
      WithinIsReachable(site, root, dist[i]);
      if dist[i] > 0 {
        WithinIsReachable(site, root, dist[i] - 1);
      }
    }
  }

  /** `text` is the text that the page at `u` shows, put together. */
  ghost predicate PageText(site: Site, u: Url, text: string) {
    IsPage(site.fetch(u)) && exists texts :: ShownTexts(site.fetch(u).body, texts) && text == site.joined(texts)
  }

  lemma PageTextIs(site: Site, u: Url, text: string)
    requires IsPage(site.fetch(u))
    ensures PageText(site, u, text) <==> text == site.joined(Texts(Kept(site.fetch(u).body)))
  {
    var body := site.fetch(u).body;
    var ways := KeptTextsAreShown(body);
    assert ShownTexts(body, Texts(Kept(body)));
    if PageText(site, u, text) {
      var texts :| ShownTexts(body, texts) && text == site.joined(texts);
      ShownTextsAreUnique(body, texts, Texts(Kept(body)));
    }
  }

  /** What the crawl adds are the texts of requested pages of 200 characters or more, each under its
      page's URL and its own checksum. */
  ghost predicate AddsPages(site: Site, was: seq<Doc>, docs: seq<Doc>, requested: seq<Url>) {
    && was <= docs
    && forall i :: |was| <= i < |docs| ==>
         && docs[i].url in requested && PageText(site, docs[i].url, docs[i].text)
         && |docs[i].text| >= 200 && docs[i].checksum == site.sha(docs[i].text)
  }

  /** Every requested page that shows so much text is stored, or has a duplicate. */
  ghost predicate KeepsPages(site: Site, docs: seq<Doc>, requested: seq<Url>) {
    forall u, text :: u in requested && PageText(site, u, text) && |text| >= 200 ==>
      exists d :: d in docs && d.checksum == site.sha(text)
  }

  lemma StoredPages(site: Site, was: seq<Doc>, docs: seq<Doc>, requested: seq<Url>)
    requires Stored(WebOf(site), was, docs, requested)
    ensures AddsPages(site, was, docs, requested) && KeepsPages(site, docs, requested)
  {
    forall i | |was| <= i < |docs|
      ensures docs[i].url in requested && PageText(site, docs[i].url, docs[i].text)
      ensures |docs[i].text| >= 200 && docs[i].checksum == site.sha(docs[i].text)
    {
      assert FromPage(WebOf(site), docs[i], requested);
      PageTextIs(site, docs[i].url, docs[i].text);
    }
    forall u, text | u in requested && PageText(site, u, text) && |text| >= 200
      ensures exists d :: d in docs && d.checksum == site.sha(text)
    {
      PageTextIs(site, u, text);
      assert Indexed(WebOf(site), docs, u);
      RowsCount(docs, site.sha(text));
      var i :| 0 <= i < |docs| && docs[i].checksum == site.sha(text);
      assert docs[i] in docs;
    }
  }

  /** A requested page shows an anchor that cannot be resolved. */
  ghost predicate BadAnchor(site: Site, requested: seq<Url>) {
    exists u, href :: u in requested && IsPage(site.fetch(u)) && Shown(site.fetch(u).body, href)
                      && site.resolve(u, href) == None
  }

  lemma UnresolvableIsBadAnchor(site: Site, requested: seq<Url>)
    ensures Unresolvable(WebOf(site), requested) <==> BadAnchor(site, requested)
  {
    var w := WebOf(site);
    if Unresolvable(w, requested) {
      var u :| u in requested && Page(w.get(u)) && !AllResolve(w, u, w.get(u).anchors);
      var i :| 0 <= i < |w.get(u).anchors| && w.resolve(u, w.get(u).anchors[i]).None?;
      KeptAnchorsAreShown(site.fetch(u).body, w.get(u).anchors[i]);
      assert Shown(site.fetch(u).body, w.get(u).anchors[i]);
    }
    if BadAnchor(site, requested) {
      var u, href :| u in requested && IsPage(site.fetch(u)) && Shown(site.fetch(u).body, href)
                     && site.resolve(u, href) == None;
      KeptAnchorsAreShown(site.fetch(u).body, href);
      var i :| 0 <= i < |w.get(u).anchors| && w.get(u).anchors[i] == href;
      assert !AllResolve(w, u, w.get(u).anchors);
    }
  }

  function PagesOf(site: Site, urls: seq<Url>): set<Url> {
    set u | u in urls && IsPage(site.fetch(u))
  }

  lemma PagesOfAppend(site: Site, urls: seq<Url>, u: Url)
    requires u !in urls
    ensures |PagesOf(site, urls + [u])| == |PagesOf(site, urls)| + if IsPage(site.fetch(u)) then 1 else 0
  {
    var pages := PagesOf(site, urls);
    forall v ensures v in PagesOf(site, urls + [u]) <==> v in pages || (v == u && IsPage(site.fetch(u))) {
      assert v in urls + [u] <==> v in urls || v == u;
    }
    if IsPage(site.fetch(u)) {
      assert PagesOf(site, urls + [u]) == pages + {u} && u !in pages;
    } else {
      assert PagesOf(site, urls + [u]) == pages;
    }
  }

  lemma SamePages(site: Site, u: Url)
    ensures Page(WebOf(site).get(u)) <==> IsPage(site.fetch(u))
  {
  }

  lemma {:induction false} PagesAreCounted(site: Site, urls: seq<Url>)
    requires forall i, j :: 0 <= i < j < |urls| ==> urls[i] != urls[j]
    ensures PagesIn(WebOf(site), urls) == |PagesOf(site, urls)|
  {
    if urls == [] {
      assert PagesOf(site, urls) == {};
    } else {
      var before, u := urls[..|urls| - 1], urls[|urls| - 1];
      PagesAreCounted(site, before);
      assert urls == before + [u] && u !in before;
      SamePages(site, u);
      PagesInAppend(WebOf(site), before, u);
      PagesOfAppend(site, before, u);
    }
  }

  /** The crawl of a site. Below the budget it requests everything that can be reached over links shown
      outside boilerplate and that robots.txt allows. It stores the text shown outside boilerplate. */
  method CrawlSite(kb: KnowledgeBase, site: Site, root: Url, maxPages: int)
    returns (fetched: int, raised: bool, requested: seq<Url>, waits: seq<nat>, ghost dist: seq<nat>)
    modifies kb
    ensures 0 <= fetched && (fetched <= maxPages || fetched == 0)
    ensures InOrder(site, root, requested, dist)
    ensures waits == Waits(WebOf(site), requested)
    ensures !raised ==> fetched == |PagesOf(site, requested)|
    ensures !raised && fetched < maxPages ==>
              forall k: nat, u :: Reachable(site, root, u, k) && site.allowed(u) ==> u in requested
    ensures AddsPages(site, old(kb.docs), kb.docs, requested) && KeepsPages(site, kb.docs, requested)
    ensures raised <==> Troubled(WebOf(site), old(kb.docs), requested)
    ensures Distinct(old(kb.docs)) ==> Distinct(kb.docs) && (raised <==> BadAnchor(site, requested))
  {
    ghost var was := kb.docs;
    fetched, raised, requested, waits, dist := CrawlUrl(kb, WebOf(site), root, maxPages);
    BreadthFirstIsInOrder(site, root, requested, dist);
    PagesAreCounted(site, requested);
    StoredPages(site, was, kb.docs, requested);
    if Distinct(was) {
      DistinctTrouble(WebOf(site), was, requested);
      UnresolvableIsBadAnchor(site, requested);
    }
    if !raised && fetched < maxPages {
      forall k: nat, u | Reachable(site, root, u, k) && site.allowed(u) ensures u in requested {
        WithinIsReachable(site, root, k);
      }
    }
  }

  /** A link in the navigation is not followed: "/b" is not in the graph. */
  lemma NavigationIsNotFollowed(site: Site, root: Url, v: Url)
    requires site.fetch(root) == Reply(200, true, [Element("nav", None, [Element("a", Some("/b"), [])])])
    ensures Links(WebOf(site), root, root) == {}
  {
    var nav := Element("nav", None, [Element("a", Some("/b"), [])]);
    assert KeptOf(nav) == [] && [nav][1..] == [];
    assert Kept([nav]) == [] + [];
    assert WebOf(site).get(root).anchors == [];
  }
}
