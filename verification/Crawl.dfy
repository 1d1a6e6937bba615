/** The same-host crawl `crawl_url` of apps/worker/vocalflow_worker/tasks/kb_ingest.py. */
module Crawl {
  import opened Basics

  type Url = string

  /** What `client.get` brings back. `anchors` are the `href` attributes and `text` is the text, with
      white space collapsed, of what is left of the page once scripts, styles, navigation, headers and
      footers are cut out; module Html says what that is. */
  datatype Response = Failed | Answer(status: int, html: bool, text: string, anchors: seq<string>)

  /** The outside world. A crawl requests each URL at most once (`requested` below), so one answer
      per URL describes every way a server can behave during one crawl. `resolve` joins an anchor to
      the URL of its page and cuts it at '#'; on some anchors, such as "http://[x", it raises. */
  datatype Web = Web(
    allowed: Url -> bool,
    get: Url -> Response,
    resolve: (Url, string) -> Option<Url>,
    host: Url -> string,
    sha: string -> string)

  datatype Doc = Doc(url: Url, text: string, checksum: string)

  predicate Throttled(r: Response) {
    r.Answer? && (r.status == 429 || r.status == 503)
  }

  predicate Page(r: Response) {
    r.Answer? && r.status == 200 && r.html
  }

  predicate AllResolve(w: Web, base: Url, anchors: seq<string>) {
    forall i :: 0 <= i < |anchors| ==> w.resolve(base, anchors[i]).Some?
  }

  // ---------------------------------------------------------------------------------------------
  // The link graph and distances in it
  // ---------------------------------------------------------------------------------------------

  predicate OnHost(w: Web, root: Url, h: Option<Url>) {
    h.Some? && w.host(h.value) == w.host(root)
  }

  /** Where the crawl may go from `u`: the same-host links of a page that robots.txt allows. */
  ghost function Links(w: Web, root: Url, u: Url): set<Url> {
    if w.allowed(u) && Page(w.get(u))
    then set a | a in w.get(u).anchors && OnHost(w, root, w.resolve(u, a)) :: w.resolve(u, a).value
    else {}
  }

  /** The URLs at most `k` links away from the root. */
  ghost function Within(w: Web, root: Url, k: nat): set<Url> {
    if k == 0 then {root}
    else Within(w, root, k - 1) + set u, v | u in Within(w, root, k - 1) && v in Links(w, root, u) :: v
  }

  ghost predicate AtDistance(w: Web, root: Url, u: Url, k: nat) {
    u in Within(w, root, k) && (k > 0 ==> u !in Within(w, root, k - 1))
  }

  lemma WithinGrows(w: Web, root: Url, j: nat, k: nat)
    requires j <= k
    ensures Within(w, root, j) <= Within(w, root, k)
  {
  }

  // ---------------------------------------------------------------------------------------------
  // Breadth first
  // ---------------------------------------------------------------------------------------------

  /** Every live entry was found at level `d` or one further, and those of level `d` come first.
      `tags` gives the distance at which each queue entry was found. Entries that have been seen
      since, among them every URL re-queued after a 429, are dead and constrain nothing. */
  ghost predicate Tagged(w: Web, root: Url, seen: set<Url>, queue: seq<Url>, tags: seq<nat>, d: nat) {
    && |tags| == |queue|
    && (forall t :: 0 <= t < |queue| && queue[t] !in seen ==>
          d <= tags[t] <= d + 1 && queue[t] in Within(w, root, tags[t]))
    && (forall s, t :: 0 <= s < t < |queue| && queue[s] !in seen && queue[t] !in seen ==> tags[s] <= tags[t])
  }

  /** Nothing beyond level `d` has been seen, and everything before it has. */
  ghost predicate Leveled(w: Web, root: Url, seen: set<Url>, d: nat) {
    seen <= Within(w, root, d) && (d > 0 ==> Within(w, root, d - 1) <= seen)
  }

  /** What is missing of level `d` waits in the queue. */
  ghost predicate Covered(w: Web, root: Url, seen: set<Url>, queue: seq<Url>, tags: seq<nat>, d: nat) {
    forall u :: u in Within(w, root, d) && u !in seen ==> Queued(queue, tags, u, d)
  }

  /** The links of what has been seen have been followed or queued. */
  ghost predicate Expanded(w: Web, root: Url, seen: set<Url>, queue: seq<Url>) {
    forall u, v :: u in seen && v in Links(w, root, u) && v !in seen ==> v in queue
  }

  /** The invariant of the search at level `d`. */
  ghost predicate Bfs(w: Web, root: Url, seen: set<Url>, queue: seq<Url>, tags: seq<nat>, d: nat) {
    && Tagged(w, root, seen, queue, tags, d)
    && Leveled(w, root, seen, d)
    && Covered(w, root, seen, queue, tags, d)
    && Expanded(w, root, seen, queue)
  }

  ghost predicate Queued(queue: seq<Url>, tags: seq<nat>, u: Url, d: nat) {
    exists t :: 0 <= t < |queue| && t < |tags| && queue[t] == u && tags[t] == d
  }

  /** When the next live entry was found one level further, the level is complete. */
  lemma NextLevel(w: Web, root: Url, seen: set<Url>, queue: seq<Url>, tags: seq<nat>, d: nat)
    requires Bfs(w, root, seen, queue, tags, d)
    requires forall t :: 0 <= t < |queue| && queue[t] !in seen ==> tags[t] == d + 1
    ensures Within(w, root, d) <= seen && Bfs(w, root, seen, queue, tags, d + 1)
  {
    assert forall u :: !(u !in seen && Queued(queue, tags, u, d));
    forall v | v in Within(w, root, d + 1) && v !in seen ensures Queued(queue, tags, v, d + 1) {
      assert v !in Within(w, root, d);
      var u :| u in Within(w, root, d) && v in Links(w, root, u);
      assert u in seen && v in queue;
      var t :| 0 <= t < |queue| && queue[t] == v;
      assert tags[t] == d + 1;
    }
  }

  /** Taking the head off leaves the other entries as they were, if the head is dead afterwards. */
  lemma DropTagged(w: Web, root: Url, seen: set<Url>, seen': set<Url>, queue: seq<Url>, tags: seq<nat>, d: nat)
    requires Tagged(w, root, seen, queue, tags, d) && queue != [] && seen <= seen'
    ensures Tagged(w, root, seen', queue[1..], tags[1..], d)
  {
    var queue', tags' := queue[1..], tags[1..];
    forall t | 0 <= t < |queue'| && queue'[t] !in seen'
      ensures d <= tags'[t] <= d + 1 && queue'[t] in Within(w, root, tags'[t])
    {
      assert queue'[t] == queue[t + 1] && tags'[t] == tags[t + 1];
    }
    forall s, t | 0 <= s < t < |queue'| && queue'[s] !in seen' && queue'[t] !in seen' ensures tags'[s] <= tags'[t] {
      assert queue'[s] == queue[s + 1] && queue'[t] == queue[t + 1];
    }
  }

  lemma DropCovered(w: Web, root: Url, seen: set<Url>, seen': set<Url>, queue: seq<Url>, tags: seq<nat>, d: nat)
    requires Covered(w, root, seen, queue, tags, d) && queue != [] && tags != [] && seen <= seen' && queue[0] in seen'
    ensures Covered(w, root, seen', queue[1..], tags[1..], d)
  {
    forall u | u in Within(w, root, d) && u !in seen' ensures Queued(queue[1..], tags[1..], u, d) {
      assert Queued(queue, tags, u, d);
      var t :| 0 <= t < |queue| && t < |tags| && queue[t] == u && tags[t] == d;
      assert queue[1..][t - 1] == u && tags[1..][t - 1] == d;
    }
  }

  lemma InRest(queue: seq<Url>, v: Url)
    requires v in queue && v != queue[0]
    ensures v in queue[1..]
  {
    var t :| 0 <= t < |queue| && queue[t] == v;
    assert queue[1..][t - 1] == v;
  }

  lemma DropExpanded(w: Web, root: Url, seen: set<Url>, queue: seq<Url>)
    requires Expanded(w, root, seen, queue) && queue != [] && queue[0] in seen
    ensures Expanded(w, root, seen, queue[1..])
  {
    forall u, v | u in seen && v in Links(w, root, u) && v !in seen ensures v in queue[1..] {
      InRest(queue, v);
    }
  }

  lemma DropDead(w: Web, root: Url, seen: set<Url>, queue: seq<Url>, tags: seq<nat>, d: nat)
    requires Bfs(w, root, seen, queue, tags, d) && queue != [] && queue[0] in seen
    ensures Bfs(w, root, seen, queue[1..], tags[1..], d)
  {
    DropTagged(w, root, seen, seen, queue, tags, d);
    DropCovered(w, root, seen, seen, queue, tags, d);
    DropExpanded(w, root, seen, queue);
  }

  /** A URL popped for the first time has exactly the distance of the current level, after the level
      has been raised if need be. */
  lemma PopLive(w: Web, root: Url, seen: set<Url>, queue: seq<Url>, tags: seq<nat>, d: nat) returns (d': nat)
    requires Bfs(w, root, seen, queue, tags, d) && queue != [] && queue[0] !in seen
    ensures d <= d' && Bfs(w, root, seen, queue, tags, d') && tags[0] == d'
    ensures AtDistance(w, root, queue[0], d')
  {
    d' := d;
    assert queue[0] in Within(w, root, tags[0]);
    if tags[0] != d {
      forall t | 0 <= t < |queue| && queue[t] !in seen ensures tags[t] == d + 1 {
        assert tags[0] <= tags[t] <= d + 1;
      }
      NextLevel(w, root, seen, queue, tags, d);
      d' := d + 1;
    }
  }

  function Filled(n: nat, d: nat): seq<nat> {
    seq(n, _ => d)
  }

  /** Entries found one level further may join at the back. */
  lemma AppendTagged(w: Web, root: Url, seen: set<Url>, queue: seq<Url>, tags: seq<nat>, d: nat, added: seq<Url>)
    requires Tagged(w, root, seen, queue, tags, d)
    requires forall v :: v in added ==> v in seen || v in Within(w, root, d + 1)
    ensures Tagged(w, root, seen, queue + added, tags + Filled(|added|, d + 1), d)
  {
    var n := |queue|;
    var queue', tags' := queue + added, tags + Filled(|added|, d + 1);
    forall t | 0 <= t < |queue'| && queue'[t] !in seen
      ensures d <= tags'[t] <= d + 1 && queue'[t] in Within(w, root, tags'[t])
    {
      if t >= n {
        assert queue'[t] == added[t - n] && added[t - n] in added;
      }
    }
  }

  lemma AppendCovered(w: Web, root: Url, seen: set<Url>, queue: seq<Url>, tags: seq<nat>, d: nat,
                      added: seq<Url>, more: seq<nat>)
    requires Covered(w, root, seen, queue, tags, d) && |queue| == |tags|
    ensures Covered(w, root, seen, queue + added, tags + more, d)
  {
    forall u | u in Within(w, root, d) && u !in seen ensures Queued(queue + added, tags + more, u, d) {
      assert Queued(queue, tags, u, d);
      var t :| 0 <= t < |queue| && t < |tags| && queue[t] == u && tags[t] == d;
      assert (queue + added)[t] == u && (tags + more)[t] == d;
    }
  }

  lemma VisitExpanded(w: Web, root: Url, seen: set<Url>, queue: seq<Url>, added: seq<Url>)
    requires Expanded(w, root, seen, queue) && queue != []
    requires forall v :: v in Links(w, root, queue[0]) ==> v in seen + {queue[0]} || v in added
    ensures Expanded(w, root, seen + {queue[0]}, queue[1..] + added)
  {
    var seen' := seen + {queue[0]};
    forall u, v | u in seen' && v in Links(w, root, u) && v !in seen' ensures v in queue[1..] + added {
      if u != queue[0] {
        InRest(queue, v);
      }
    }
  }

  /** Visiting the head: it becomes seen, and `added` goes to the back of the queue. */
  lemma Visit(w: Web, root: Url, seen: set<Url>, queue: seq<Url>, tags: seq<nat>, d: nat, added: seq<Url>)
    requires Bfs(w, root, seen, queue, tags, d) && queue != [] && queue[0] !in seen && tags[0] == d
    requires var seen' := seen + {queue[0]};
             && (forall v :: v in added ==> v in seen' || v in Links(w, root, queue[0]))
             && (forall v :: v in Links(w, root, queue[0]) ==> v in seen' || v in added)
    ensures Bfs(w, root, seen + {queue[0]}, queue[1..] + added, tags[1..] + Filled(|added|, d + 1), d)
  {
    var u0 := queue[0];
    var seen' := seen + {u0};
    DropTagged(w, root, seen, seen', queue, tags, d);
    assert u0 in Within(w, root, d);
    AppendTagged(w, root, seen', queue[1..], tags[1..], d, added);
    DropCovered(w, root, seen, seen', queue, tags, d);
    AppendCovered(w, root, seen', queue[1..], tags[1..], d, added, Filled(|added|, d + 1));
    VisitExpanded(w, root, seen, queue, added);
  }

  /** When the queue is empty, everything reachable has been seen. */
  lemma {:induction false} EmptyQueueMeansComplete(w: Web, root: Url, seen: set<Url>, tags: seq<nat>, d: nat, k: nat)
    requires Bfs(w, root, seen, [], tags, d)
    ensures Within(w, root, k) <= seen
  {
    if k == 0 {
      WithinGrows(w, root, 0, d);
      assert root in Within(w, root, d);
      assert !Queued([], tags, root, d);
    } else {
      EmptyQueueMeansComplete(w, root, seen, tags, d, k - 1);
    }
  }

  // ---------------------------------------------------------------------------------------------
  // Termination
  // ---------------------------------------------------------------------------------------------

  /** The queue entries that have not been seen. */
  function Live(queue: seq<Url>, seen: set<Url>): nat {
    if queue == [] then 0 else (if queue[0] in seen then 0 else 1) + Live(queue[1..], seen)
  }

  lemma {:induction false} LiveShrinks(queue: seq<Url>, seen: set<Url>, u: Url)
    ensures Live(queue, seen + {u}) <= Live(queue, seen)
  {
    if queue != [] {
      LiveShrinks(queue[1..], seen, u);
    }
  }

  lemma {:induction false} LiveAppendDead(queue: seq<Url>, seen: set<Url>, u: Url)
    requires u in seen
    ensures Live(queue + [u], seen) == Live(queue, seen)
  {
    if queue == [] {
      assert [u][1..] == [];
    } else {
      LiveAppendDead(queue[1..], seen, u);
      assert (queue + [u])[1..] == queue[1..] + [u];
    }
  }

  // ---------------------------------------------------------------------------------------------
  // Storing pages
  // ---------------------------------------------------------------------------------------------

  function Rows(docs: seq<Doc>, checksum: string): nat {
    if docs == [] then 0 else (if docs[0].checksum == checksum then 1 else 0) + Rows(docs[1..], checksum)
  }

  /** No two documents of the knowledge base have the same checksum. */
  ghost predicate Distinct(docs: seq<Doc>) {
    forall i, j :: 0 <= i < j < |docs| ==> docs[i].checksum != docs[j].checksum
  }

  lemma {:induction false} RowsCount(docs: seq<Doc>, checksum: string)
    ensures Rows(docs, checksum) == 0 <==> forall i :: 0 <= i < |docs| ==> docs[i].checksum != checksum
    ensures Distinct(docs) ==> Rows(docs, checksum) <= 1
  {
    if docs != [] {
      RowsCount(docs[1..], checksum);
      assert docs == [docs[0]] + docs[1..];
    }
  }

  lemma {:induction false} RowsAppend(docs: seq<Doc>, d: Doc, checksum: string)
    ensures Rows(docs + [d], checksum) == Rows(docs, checksum) + if d.checksum == checksum then 1 else 0
  {
    if docs == [] {
      assert docs + [d] == [d] && [d][1..] == [];
    } else {
      RowsAppend(docs[1..], d, checksum);
      assert (docs + [d])[1..] == docs[1..] + [d];
    }
  }

  class KnowledgeBase {
    var docs: seq<Doc>

    /** SELECT by checksum, INSERT if absent. `scalar_one_or_none` raises on two rows or more. What was
        there stays, and afterwards there is exactly one row with the checksum. */
    method Store(d: Doc) returns (raised: bool)
      modifies this
      ensures raised <==> Rows(old(docs), d.checksum) > 1
      ensures raised ==> docs == old(docs)
      ensures !raised ==> Rows(docs, d.checksum) == 1 && old(docs) <= docs <= old(docs) + [d]
      ensures Distinct(old(docs)) ==> !raised && Distinct(docs)
    {
      RowsCount(docs, d.checksum);
      var rows := Rows(docs, d.checksum);
      raised := rows > 1;
      if rows == 0 {
        RowsAppend(docs, d, d.checksum);
        docs := docs + [d];
      }
    }
  }

  /** What one anchor adds to the queue. */
  function NewLink(w: Web, root: Url, base: Url, anchor: string, seen: set<Url>): seq<Url> {
    var h := w.resolve(base, anchor);
    if OnHost(w, root, h) && h.value !in seen then [h.value] else []
  }

  /** What the first `n` anchors add. */
  function NewLinks(w: Web, root: Url, base: Url, anchors: seq<string>, n: nat, seen: set<Url>): seq<Url>
    requires n <= |anchors|
  {
    if n == 0 then []
    else NewLinks(w, root, base, anchors, n - 1, seen) + NewLink(w, root, base, anchors[n - 1], seen)
  }

  /** What a page adds. */
  function PageLinks(w: Web, root: Url, u: Url, seen: set<Url>): seq<Url>
    requires w.get(u).Answer?
  {
    NewLinks(w, root, u, w.get(u).anchors, |w.get(u).anchors|, seen)
  }

  lemma {:induction false} NewLinksAre(w: Web, root: Url, base: Url, anchors: seq<string>, n: nat, seen: set<Url>,
                                       h: Url)
    requires n <= |anchors|
    ensures h in NewLinks(w, root, base, anchors, n, seen) <==>
            w.host(h) == w.host(root) && h !in seen && exists i :: 0 <= i < n && w.resolve(base, anchors[i]) == Some(h)
  {
    if n > 0 {
      NewLinksAre(w, root, base, anchors, n - 1, seen, h);
    }
  }

  lemma PageLinksAre(w: Web, root: Url, u: Url, seen: set<Url>, h: Url)
    requires w.allowed(u) && Page(w.get(u))
    ensures h in PageLinks(w, root, u, seen) <==> h in Links(w, root, u) && h !in seen
  {
    var anchors := w.get(u).anchors;
    NewLinksAre(w, root, u, anchors, |anchors|, seen, h);
    if h in Links(w, root, u) {
      var a :| a in anchors && OnHost(w, root, w.resolve(u, a)) && w.resolve(u, a).value == h;
      var i :| 0 <= i < |anchors| && anchors[i] == a;
    }
  }

  /** The document that a page is stored as, if it is long enough. */
  function DocOf(w: Web, u: Url, text: string): Doc {
    Doc(u, text, w.sha(text))
  }

  ghost predicate Indexed(w: Web, docs: seq<Doc>, u: Url) {
    Page(w.get(u)) && |w.get(u).text| >= 200 ==> Rows(docs, w.sha(w.get(u).text)) > 0
  }

  function PagesIn(w: Web, urls: seq<Url>): nat {
    if urls == [] then 0 else PagesIn(w, urls[..|urls| - 1]) + if Page(w.get(urls[|urls| - 1])) then 1 else 0
  }

  /** What is known of the requests made so far, each with its distance from the root. */
  ghost predicate Requests(w: Web, root: Url, seen: set<Url>, requested: seq<Url>, dist: seq<nat>, d: nat) {
    && |dist| == |requested|
    && (forall u :: u in requested <==> u in seen && w.allowed(u))
    && (forall i, j :: 0 <= i < j < |requested| ==> requested[i] != requested[j] && dist[i] <= dist[j])
    && (forall i :: 0 <= i < |requested| ==> AtDistance(w, root, requested[i], dist[i]) && dist[i] <= d)
  }

  lemma Request(w: Web, root: Url, seen: set<Url>, requested: seq<Url>, dist: seq<nat>, d: nat, u: Url, d': nat)
    requires Requests(w, root, seen, requested, dist, d) && d <= d' && u !in seen && AtDistance(w, root, u, d')
    ensures w.allowed(u) ==> Requests(w, root, seen + {u}, requested + [u], dist + [d'], d')
    ensures !w.allowed(u) ==> Requests(w, root, seen + {u}, requested, dist, d')
  {
    if w.allowed(u) {
      forall v ensures v in requested + [u] <==> v in seen + {u} && w.allowed(v) {
      }
    }
  }

  /** What is stored: the documents that were there, then some of the long pages requested; every
      long page requested is stored, under its own URL or as a duplicate. */
  ghost predicate Stored(w: Web, was: seq<Doc>, docs: seq<Doc>, requested: seq<Url>) {
    && was <= docs
    && (forall i :: |was| <= i < |docs| ==> FromPage(w, docs[i], requested))
    && (forall u :: u in requested ==> Indexed(w, docs, u))
    && (Distinct(was) ==> Distinct(docs))
    && forall c :: Rows(docs, c) > 1 <==> Rows(was, c) > 1
  }

  ghost predicate FromPage(w: Web, d: Doc, requested: seq<Url>) {
    && d.url in requested && Page(w.get(d.url)) && |w.get(d.url).text| >= 200
    && d == DocOf(w, d.url, w.get(d.url).text)
  }

  /** What is added for page `u`: its document, if it is long and no row has its checksum. */
  ghost predicate AddedFor(w: Web, docs: seq<Doc>, u: Url, added: seq<Doc>) {
    var long := Page(w.get(u)) && |w.get(u).text| >= 200;
    && (!long ==> added == [])
    && (long ==> added == if Rows(docs, w.sha(w.get(u).text)) == 0 then [DocOf(w, u, w.get(u).text)] else [])
  }

  lemma RowsKept(w: Web, docs: seq<Doc>, u: Url, added: seq<Doc>, c: string)
    requires AddedFor(w, docs, u, added)
    ensures Rows(docs + added, c) >= Rows(docs, c)
    ensures Rows(docs + added, c) > 1 <==> Rows(docs, c) > 1
  {
    if added != [] {
      assert docs + added == docs + [added[0]];
      RowsAppend(docs, added[0], c);
    } else {
      assert docs + added == docs;
    }
  }

  lemma NowIndexed(w: Web, docs: seq<Doc>, u: Url, added: seq<Doc>)
    requires AddedFor(w, docs, u, added)
    ensures Indexed(w, docs + added, u)
  {
    if added != [] {
      assert docs + added == docs + [added[0]];
      RowsAppend(docs, added[0], added[0].checksum);
    } else {
      assert docs + added == docs;
    }
  }

  lemma StaysDistinct(w: Web, docs: seq<Doc>, u: Url, added: seq<Doc>)
    requires AddedFor(w, docs, u, added) && Distinct(docs)
    ensures Distinct(docs + added)
  {
    if added != [] {
      RowsCount(docs, added[0].checksum);
    }
  }

  lemma StoreKeeps(w: Web, was: seq<Doc>, docs: seq<Doc>, requested: seq<Url>, u: Url, added: seq<Doc>)
    requires Stored(w, was, docs, requested) && AddedFor(w, docs, u, added)
    ensures Stored(w, was, docs + added, requested + [u])
  {
    var docs' := docs + added;
    NowIndexed(w, docs, u, added);
    forall v | v in requested ensures Indexed(w, docs', v) {
      assert Indexed(w, docs, v);
      if Page(w.get(v)) {
        RowsKept(w, docs, u, added, w.sha(w.get(v).text));
      }
    }
    forall c ensures Rows(docs', c) > 1 <==> Rows(was, c) > 1 {
      RowsKept(w, docs, u, added, c);
    }
    if Distinct(was) {
      StaysDistinct(w, docs, u, added);
    }
    forall i | |was| <= i < |docs'| ensures FromPage(w, docs'[i], requested + [u]) {
      assert i < |docs| ==> FromPage(w, docs[i], requested);
    }
  }

  lemma NothingStored(w: Web, was: seq<Doc>, docs: seq<Doc>, requested: seq<Url>, u: Url)
    requires Stored(w, was, docs, requested) && !Page(w.get(u))
    ensures Stored(w, was, docs, requested + [u])
  {
    StoreKeeps(w, was, docs, requested, u, []);
    assert docs + [] == docs;
  }

  /** Visiting a page that leads nowhere. */
  lemma VisitLeaf(w: Web, root: Url, seen: set<Url>, queue: seq<Url>, tags: seq<nat>, d: nat)
    requires Bfs(w, root, seen, queue, tags, d) && queue != [] && queue[0] !in seen && tags[0] == d
    requires Links(w, root, queue[0]) == {}
    ensures Bfs(w, root, seen + {queue[0]}, queue[1..], tags[1..], d)
  {
    Visit(w, root, seen, queue, tags, d, []);
    assert queue[1..] + [] == queue[1..] && tags[1..] + Filled(0, d + 1) == tags[1..];
  }

  /** The loop over the page's anchors; it ends at the first that cannot be resolved. */
  method Enqueue(w: Web, root: Url, base: Url, anchors: seq<string>, seen: set<Url>, queue: seq<Url>)
    returns (queue': seq<Url>, raised: bool)
    ensures raised <==> !AllResolve(w, base, anchors)
    ensures !raised ==> queue' == queue + NewLinks(w, root, base, anchors, |anchors|, seen)
  {
    queue' := queue;
    for i := 0 to |anchors|
      invariant forall j :: 0 <= j < i ==> w.resolve(base, anchors[j]).Some?
      invariant queue' == queue + NewLinks(w, root, base, anchors, i, seen)
    {
      var href := w.resolve(base, anchors[i]);
      if href.None? {
        return queue', true;
      }
      if w.host(href.value) == w.host(root) && href.value !in seen {
        queue' := queue' + [href.value];
      }
    }
    raised := false;
  }

  lemma VisitPage(w: Web, root: Url, seen: set<Url>, queue: seq<Url>, tags: seq<nat>, d: nat)
    requires Bfs(w, root, seen, queue, tags, d) && queue != [] && queue[0] !in seen && tags[0] == d
    requires w.allowed(queue[0]) && Page(w.get(queue[0]))
    ensures var added := PageLinks(w, root, queue[0], seen + {queue[0]});
            Bfs(w, root, seen + {queue[0]}, queue[1..] + added, tags[1..] + Filled(|added|, d + 1), d)
  {
    var added := PageLinks(w, root, queue[0], seen + {queue[0]});
    forall v ensures v in added <==> v in Links(w, root, queue[0]) && v !in seen + {queue[0]} {
      PageLinksAre(w, root, queue[0], seen + {queue[0]}, v);
    }
    Visit(w, root, seen, queue, tags, d, added);
  }

  lemma PagesInAppend(w: Web, urls: seq<Url>, u: Url)
    ensures PagesIn(w, urls + [u]) == PagesIn(w, urls) + if Page(w.get(u)) then 1 else 0
  {
    assert (urls + [u])[..|urls|] == urls;
  }

  /** The state of the search: queue, seen set and the requests made. */
  ghost predicate Searching(w: Web, root: Url, seen: set<Url>, queue: seq<Url>, tags: seq<nat>, d: nat,
                            requested: seq<Url>, dist: seq<nat>)
  {
    Bfs(w, root, seen, queue, tags, d) && Requests(w, root, seen, requested, dist, d)
  }

  /** One round of the loop with a URL not seen before, up to what it puts into the queue. */
  lemma Round(w: Web, root: Url, seen: set<Url>, queue: seq<Url>, tags: seq<nat>, d: nat,
              requested: seq<Url>, dist: seq<nat>) returns (d': nat)
    requires Searching(w, root, seen, queue, tags, d, requested, dist) && queue != [] && queue[0] !in seen
    ensures Bfs(w, root, seen, queue, tags, d') && tags[0] == d'
    ensures w.allowed(queue[0]) ==>
              Requests(w, root, seen + {queue[0]}, requested + [queue[0]], dist + [d'], d')
    ensures !w.allowed(queue[0]) ==> Requests(w, root, seen + {queue[0]}, requested, dist, d')
    ensures Live(queue[1..], seen + {queue[0]}) < Live(queue, seen)
  {
    d' := PopLive(w, root, seen, queue, tags, d);
    Request(w, root, seen, requested, dist, d, queue[0], d');
    LiveShrinks(queue[1..], seen, queue[0]);
  }

  lemma RoundForbidden(w: Web, root: Url, seen: set<Url>, queue: seq<Url>, tags: seq<nat>, d: nat,
                       requested: seq<Url>, dist: seq<nat>) returns (d': nat)
    requires Searching(w, root, seen, queue, tags, d, requested, dist) && queue != [] && queue[0] !in seen
    requires !w.allowed(queue[0])
    ensures Searching(w, root, seen + {queue[0]}, queue[1..], tags[1..], d', requested, dist)
    ensures Live(queue[1..], seen + {queue[0]}) < Live(queue, seen)
  {
    d' := Round(w, root, seen, queue, tags, d, requested, dist);
    VisitLeaf(w, root, seen, queue, tags, d');
  }

  lemma RoundLeaf(w: Web, root: Url, seen: set<Url>, queue: seq<Url>, tags: seq<nat>, d: nat,
                  requested: seq<Url>, dist: seq<nat>) returns (d': nat)
    requires Searching(w, root, seen, queue, tags, d, requested, dist) && queue != [] && queue[0] !in seen
    requires w.allowed(queue[0]) && !Page(w.get(queue[0]))
    ensures Searching(w, root, seen + {queue[0]}, queue[1..], tags[1..], d', requested + [queue[0]], dist + [d'])
    ensures Live(queue[1..], seen + {queue[0]}) < Live(queue, seen)
  {
    d' := Round(w, root, seen, queue, tags, d, requested, dist);
    VisitLeaf(w, root, seen, queue, tags, d');
  }

  /** A 429 or 503: the URL goes back into the queue, where it is dead. */
  lemma RoundThrottled(w: Web, root: Url, seen: set<Url>, queue: seq<Url>, tags: seq<nat>, d: nat,
                       requested: seq<Url>, dist: seq<nat>) returns (d': nat)
    requires Searching(w, root, seen, queue, tags, d, requested, dist) && queue != [] && queue[0] !in seen
    requires w.allowed(queue[0]) && Throttled(w.get(queue[0]))
    ensures Searching(w, root, seen + {queue[0]}, queue[1..] + [queue[0]], tags[1..] + Filled(1, d' + 1), d',
                      requested + [queue[0]], dist + [d'])
    ensures Live(queue[1..] + [queue[0]], seen + {queue[0]}) < Live(queue, seen)
  {
    d' := Round(w, root, seen, queue, tags, d, requested, dist);
    Visit(w, root, seen, queue, tags, d', [queue[0]]);
    LiveAppendDead(queue[1..], seen + {queue[0]}, queue[0]);
  }

  lemma RoundPage(w: Web, root: Url, seen: set<Url>, queue: seq<Url>, tags: seq<nat>, d: nat,
                  requested: seq<Url>, dist: seq<nat>) returns (d': nat)
    requires Searching(w, root, seen, queue, tags, d, requested, dist) && queue != [] && queue[0] !in seen
    requires w.allowed(queue[0]) && Page(w.get(queue[0]))
    ensures var added := PageLinks(w, root, queue[0], seen + {queue[0]});
            Searching(w, root, seen + {queue[0]}, queue[1..] + added, tags[1..] + Filled(|added|, d' + 1), d',
                      requested + [queue[0]], dist + [d'])
  {
    d' := Round(w, root, seen, queue, tags, d, requested, dist);
    VisitPage(w, root, seen, queue, tags, d');
  }

  lemma RoundDead(w: Web, root: Url, seen: set<Url>, queue: seq<Url>, tags: seq<nat>, d: nat,
                  requested: seq<Url>, dist: seq<nat>)
    requires Searching(w, root, seen, queue, tags, d, requested, dist) && queue != [] && queue[0] in seen
    ensures Searching(w, root, seen, queue[1..], tags[1..], d, requested, dist)
    ensures Live(queue[1..], seen) <= Live(queue, seen)
  {
    DropDead(w, root, seen, queue, tags, d);
  }

  /** What the search has achieved, in the caller's terms. */
  lemma Outcome(w: Web, root: Url, seen: set<Url>, queue: seq<Url>, tags: seq<nat>, d: nat,
                requested: seq<Url>, dist: seq<nat>)
    requires Searching(w, root, seen, queue, tags, d, requested, dist)
    ensures BreadthFirst(w, root, requested, dist)
    ensures queue == [] ==> Complete(w, root, requested)
  {
    if queue == [] {
      forall k: nat, u | u in Within(w, root, k) && w.allowed(u) ensures u in requested {
        EmptyQueueMeansComplete(w, root, seen, tags, d, k);
      }
    }
  }

  /** Pairwise different, allowed, and in the order of their exact link distances from the root. */
  ghost predicate BreadthFirst(w: Web, root: Url, requested: seq<Url>, dist: seq<nat>) {
    && |dist| == |requested|
    && (forall i, j :: 0 <= i < j < |requested| ==> requested[i] != requested[j] && dist[i] <= dist[j])
    && forall i :: 0 <= i < |requested| ==> w.allowed(requested[i]) && AtDistance(w, root, requested[i], dist[i])
  }

  /** Everything that can be reached and that robots.txt allows has been requested. */
  ghost predicate Complete(w: Web, root: Url, requested: seq<Url>) {
    forall k: nat, u :: u in Within(w, root, k) && w.allowed(u) ==> u in requested
  }

  /** What makes the task raise at a page: an anchor that cannot be resolved, or two documents that
      have the page's checksum. The unique index on knowledge base and checksum excludes the second. */
  ghost predicate Trouble(w: Web, was: seq<Doc>, u: Url) {
    Page(w.get(u)) && (TwoRows(w, was, u) || !AllResolve(w, u, w.get(u).anchors))
  }

  predicate TwoRows(w: Web, was: seq<Doc>, u: Url)
    requires w.get(u).Answer?
  {
    |w.get(u).text| >= 200 && Rows(was, w.sha(w.get(u).text)) > 1
  }

  ghost predicate Troubled(w: Web, was: seq<Doc>, requested: seq<Url>) {
    exists u :: u in requested && Trouble(w, was, u)
  }

  lemma TroubledAppend(w: Web, was: seq<Doc>, requested: seq<Url>, u: Url)
    ensures Troubled(w, was, requested + [u]) <==> Troubled(w, was, requested) || Trouble(w, was, u)
  {
    assert u in requested + [u];
    assert forall v :: v in requested + [u] <==> v in requested || v == u;
  }

  ghost predicate Unresolvable(w: Web, requested: seq<Url>) {
    exists u :: u in requested && Page(w.get(u)) && !AllResolve(w, u, w.get(u).anchors)
  }

  /** Where checksums are distinct, as the unique index has it, only an anchor can make the task raise. */
  lemma DistinctTrouble(w: Web, was: seq<Doc>, requested: seq<Url>)
    requires Distinct(was)
    ensures Troubled(w, was, requested) <==> Unresolvable(w, requested)
  {
    forall u | u in requested && Page(w.get(u)) ensures !TwoRows(w, was, u) {
      RowsCount(was, w.sha(w.get(u).text));
    }
    if Unresolvable(w, requested) {
      var u :| u in requested && Page(w.get(u)) && !AllResolve(w, u, w.get(u).anchors);
      assert Trouble(w, was, u);
    }
  }

  /** Checksum, lookup and insertion for one page. */
  method IndexPage(kb: KnowledgeBase, w: Web, url: Url, text: string, ghost was: seq<Doc>, ghost requested: seq<Url>)
    returns (raised: bool)
    requires Page(w.get(url)) && w.get(url).text == text && Stored(w, was, kb.docs, requested)
    modifies kb
    ensures Stored(w, was, kb.docs, requested + [url])
    ensures raised <==> TwoRows(w, was, url)
  {
    raised := false;
    ghost var added: seq<Doc> := [];
    ghost var docs := kb.docs;
    if |text| >= 200 {
      RowsAppend(docs, DocOf(w, url, text), w.sha(text));
      added := if Rows(docs, w.sha(text)) == 0 then [DocOf(w, url, text)] else [];
      raised := kb.Store(DocOf(w, url, text));
      assert kb.docs == docs || kb.docs == docs + [DocOf(w, url, text)];
    }
    assert kb.docs == docs + added;
    StoreKeeps(w, was, docs, requested, url, added);
  }

  /** What is done with an HTML page: it is indexed, and its links are queued. */
  method TreatPage(kb: KnowledgeBase, w: Web, root: Url, url: Url, seen: set<Url>, queue: seq<Url>,
                   ghost was: seq<Doc>, ghost requested: seq<Url>)
    returns (raised: bool, queue': seq<Url>)
    requires Page(w.get(url)) && Stored(w, was, kb.docs, requested)
    modifies kb
    ensures Stored(w, was, kb.docs, requested + [url])
    ensures raised <==> Trouble(w, was, url)
    ensures !raised ==> queue' == queue + PageLinks(w, root, url, seen)
  {
    queue' := queue;
    raised := IndexPage(kb, w, url, w.get(url).text, was, requested);
    if !raised {
      queue', raised := Enqueue(w, root, url, w.get(url).anchors, seen, queue);
    }
  }

  // ---------------------------------------------------------------------------------------------
  // Waiting after 429 and 503
  // ---------------------------------------------------------------------------------------------

  /** The `backoff` variable after these requests: a failed request leaves it as it is. */
  function Backoff(w: Web, urls: seq<Url>): nat {
    if urls == [] then 1
    else
      var before, r := Backoff(w, urls[..|urls| - 1]), w.get(urls[|urls| - 1]);
      if Throttled(r) then before * 2 else if r.Answer? then 1 else before
  }

  function Capped(backoff: nat): nat {
    if backoff < 30 then backoff else 30
  }

  /** The seconds slept, in order. */
  function Waits(w: Web, urls: seq<Url>): seq<nat> {
    if urls == [] then []
    else
      var before := urls[..|urls| - 1];
      Waits(w, before) + if Throttled(w.get(urls[|urls| - 1])) then [Capped(Backoff(w, before))] else []
  }

  lemma WaitsAppend(w: Web, urls: seq<Url>, u: Url)
    ensures Throttled(w.get(u)) ==>
              && Backoff(w, urls + [u]) == Backoff(w, urls) * 2
              && Waits(w, urls + [u]) == Waits(w, urls) + [Capped(Backoff(w, urls))]
    ensures !Throttled(w.get(u)) ==>
              && Backoff(w, urls + [u]) == (if w.get(u).Answer? then 1 else Backoff(w, urls))
              && Waits(w, urls + [u]) == Waits(w, urls)
  {
    assert (urls + [u])[..|urls|] == urls;
    assert Waits(w, urls) + [] == Waits(w, urls);
  }

  /** How many of urls[from..to] are told to come back later. */
  function TurnedAway(w: Web, urls: seq<Url>, from: nat, to: nat): nat
    requires from <= to <= |urls|
  {
    if from == to then 0
    else
      var r := w.get(urls[to - 1]);
      TurnedAway(w, urls, from, to - 1) + if r.Answer? && r.status in {429, 503} then 1 else 0
  }

  function Doubled(k: nat): nat {
    if k == 0 then 1 else 2 * Doubled(k - 1)
  }

  /** From position `r` to `i` no request gets an answer other than 429 and 503, and before `r` one does. */
  ghost predicate Streak(w: Web, urls: seq<Url>, r: nat, i: nat) {
    && r <= i <= |urls|
    && (forall m :: r <= m < i ==> w.get(urls[m]).Answer? ==> w.get(urls[m]).status in {429, 503})
    && (r > 0 ==> w.get(urls[r - 1]).Answer? && w.get(urls[r - 1]).status !in {429, 503})
  }

  lemma {:induction false} BackoffDoubles(w: Web, urls: seq<Url>, r: nat, i: nat)
    requires Streak(w, urls, r, i)
    ensures Backoff(w, urls[..i]) == Doubled(TurnedAway(w, urls, r, i))
    decreases i
  {
    if r < i {
      BackoffDoubles(w, urls, r, i - 1);
      assert urls[..i] == urls[..i - 1] + [urls[i - 1]];
      WaitsAppend(w, urls[..i - 1], urls[i - 1]);
    } else if i > 0 {
      assert urls[..i] == urls[..i - 1] + [urls[i - 1]];
      WaitsAppend(w, urls[..i - 1], urls[i - 1]);
    }
  }

  lemma {:induction false} WaitsCount(w: Web, urls: seq<Url>, i: nat)
    requires i <= |urls|
    ensures |Waits(w, urls[..i])| == TurnedAway(w, urls, 0, i)
    decreases i
  {
    if i > 0 {
      WaitsCount(w, urls, i - 1);
      assert urls[..i] == urls[..i - 1] + [urls[i - 1]];
      WaitsAppend(w, urls[..i - 1], urls[i - 1]);
    }
  }

  lemma {:induction false} WaitsExtend(w: Web, urls: seq<Url>, i: nat, n: nat)
    requires i <= n <= |urls|
    ensures Waits(w, urls[..i]) <= Waits(w, urls[..n])
    decreases n
  {
    if i < n {
      WaitsExtend(w, urls, i, n - 1);
      assert urls[..n] == urls[..n - 1] + [urls[n - 1]];
      WaitsAppend(w, urls[..n - 1], urls[n - 1]);
    }
  }

  /** Each 429 or 503 is slept on once: one second, twice as long for each further one in a streak, and never
      more than thirty. */
  lemma WaitIs(w: Web, urls: seq<Url>, r: nat, i: nat)
    requires Streak(w, urls, r, i) && i < |urls| && w.get(urls[i]).Answer? && w.get(urls[i]).status in {429, 503}
    ensures |Waits(w, urls)| == TurnedAway(w, urls, 0, |urls|) && TurnedAway(w, urls, 0, i) < |Waits(w, urls)|
    ensures var wait := Waits(w, urls)[TurnedAway(w, urls, 0, i)];
            var doubled := Doubled(TurnedAway(w, urls, r, i));
            wait == if doubled < 30 then doubled else 30
  {
    BackoffDoubles(w, urls, r, i);
    WaitsCount(w, urls, i);
    WaitsCount(w, urls, |urls|);
    assert urls[..i + 1] == urls[..i] + [urls[i]] && urls[..|urls|] == urls;
    WaitsAppend(w, urls[..i], urls[i]);
    WaitsExtend(w, urls, i + 1, |urls|);
  }

  /** The crawl. It terminates whatever the servers answer. The URLs it requests are pairwise
      different and come in the order of their link distance from the root. If it stops below the
      page budget, it has requested everything that can be reached and that robots.txt allows. It
      raises exactly if one of the pages it requested gives it trouble. */
  method CrawlUrl(kb: KnowledgeBase, w: Web, root: Url, maxPages: int)
    returns (fetched: int, raised: bool, requested: seq<Url>, waits: seq<nat>, ghost dist: seq<nat>)
    modifies kb
    ensures 0 <= fetched && (fetched <= maxPages || fetched == 0)
    ensures !raised ==> fetched == PagesIn(w, requested)
    ensures waits == Waits(w, requested)
    ensures BreadthFirst(w, root, requested, dist)
    ensures !raised && fetched < maxPages ==> Complete(w, root, requested)
    ensures Stored(w, old(kb.docs), kb.docs, requested)
    ensures raised <==> Troubled(w, old(kb.docs), requested)
  {
    ghost var was := kb.docs;
    var seen: set<Url> := {};
    var queue: seq<Url> := [root];
    ghost var tags: seq<nat>, d: nat := [0], 0;
    fetched, raised, requested, waits, dist := 0, false, [], [], [];
    var backoff := 1;
    assert Queued(queue, tags, root, 0) by { assert queue[0] == root && tags[0] == 0; }
    while queue != [] && fetched < maxPages
      invariant 0 <= fetched && (fetched <= maxPages || fetched == 0) && !raised
      invariant fetched == PagesIn(w, requested)
      invariant backoff == Backoff(w, requested) && waits == Waits(w, requested)
      invariant Searching(w, root, seen, queue, tags, d, requested, dist)
      invariant Stored(w, was, kb.docs, requested)
      invariant !Troubled(w, was, requested)
      decreases maxPages - fetched, Live(queue, seen), |queue|
    {
      var url, rest := queue[0], queue[1..];
      if url in seen {
        RoundDead(w, root, seen, queue, tags, d, requested, dist);
        queue, tags := rest, tags[1..];
        continue;
      }
      if !w.allowed(url) {
        d := RoundForbidden(w, root, seen, queue, tags, d, requested, dist);
        seen, queue, tags := seen + {url}, rest, tags[1..];
        continue;
      }
      var resp := w.get(url);
      PagesInAppend(w, requested, url);
      TroubledAppend(w, was, requested, url);
      WaitsAppend(w, requested, url);
      if Throttled(resp) {
        waits, backoff := waits + [Capped(backoff)], backoff * 2;
        d := RoundThrottled(w, root, seen, queue, tags, d, requested, dist);
        NothingStored(w, was, kb.docs, requested, url);
        seen, queue, tags := seen + {url}, rest + [url], tags[1..] + Filled(1, d + 1);
        requested, dist := requested + [url], dist + [d];
        continue;
      }
      backoff := if resp.Answer? then 1 else backoff;
      if !Page(resp) {
        d := RoundLeaf(w, root, seen, queue, tags, d, requested, dist);
        NothingStored(w, was, kb.docs, requested, url);
        seen, queue, tags := seen + {url}, rest, tags[1..];
        requested, dist := requested + [url], dist + [d];
        continue;
      }
      d := RoundPage(w, root, seen, queue, tags, d, requested, dist);
      seen := seen + {url};
      raised, queue := TreatPage(kb, w, root, url, seen, rest, was, requested);
      requested, dist := requested + [url], dist + [d];
      ghost var links := PageLinks(w, root, url, seen);
      tags := tags[1..] + Filled(|links|, d + 1);
      if raised {
        Outcome(w, root, seen, rest + links, tags, d, requested, dist);
        return;
      }
      fetched := fetched + 1;
    }
    Outcome(w, root, seen, queue, tags, d, requested, dist);
  }
}
