/**
 The node tree: nodes know their parent and list their children.

 Appending a node sets its parent without taking it off the list of an earlier parent, so the lists
 may name a node more than once; the parent it knows always lists it.
 */
module HtmlTree {
  import opened Wrappers
  import opened HtmlStack

  datatype Content =
    | DocumentNode
    | ElementNode(element: Element)
    | TextNode(data: string)
    | CommentNode(text: string)
    | DoctypeNode

  datatype Node = Node(content: Content, parent: Option<NodeId>, children: seq<NodeId>)

  type Tree = map<NodeId, Node>

  const DOCUMENT: NodeId := 0

  predicate Edge(t: Tree, p: NodeId, c: NodeId) {
    p in t && c in t[p].children
  }

  function Created(t: Tree, id: NodeId, content: Content): Tree {
    t[id := Node(content, None, [])]
  }

  function Appended(t: Tree, p: NodeId, c: NodeId): (u: Tree)
    ensures u.Keys == t.Keys
  {
    if p in t && c in t then
      var linked := t[c := t[c].(parent := Some(p))];
      linked[p := linked[p].(children := linked[p].children + [c])]
    else t
  }

  function Without(s: seq<NodeId>, c: NodeId): seq<NodeId> {
    if s == [] then [] else if s[0] == c then s[1..] else [s[0]] + Without(s[1..], c)
  }

  // Taken off the list of the parent it knows; it goes on knowing that parent.
  function Unparented(t: Tree, c: NodeId): Tree {
    if c in t && t[c].parent.Some? && t[c].parent.value in t then
      var p := t[c].parent.value;
      t[p := t[p].(children := Without(t[p].children, c))]
    else t
  }

  // The first n children of one node appended to another; the first goes on listing them.
  function Taken(t: Tree, to: NodeId, from: NodeId, n: nat): (u: Tree)
    requires from in t && n <= |t[from].children|
  {
    if n == 0 then t else Appended(Taken(t, to, from, n - 1), to, t[from].children[n - 1])
  }

  predicate EndsInText(t: Tree, place: NodeId) {
    && place in t && t[place].children != []
    && t[place].children[|t[place].children| - 1] in t
    && t[t[place].children[|t[place].children| - 1]].content.TextNode?
  }

  // A character joins the text node that ends a node's children, or begins a new one.
  function WithText(t: Tree, place: NodeId, id: NodeId, data: char): Tree {
    if EndsInText(t, place) then
      var last := t[place].children[|t[place].children| - 1];
      t[last := t[last].(content := TextNode(t[last].content.data + [data]))]
    else
      Grown(t, place, id, TextNode([data]))
  }

  // The text that ends a node's children.
  function TextAt(t: Tree, place: NodeId): string {
    if EndsInText(t, place) then t[t[place].children[|t[place].children| - 1]].content.data else ""
  }

  lemma TextGrows(t: Tree, place: NodeId, id: NodeId, data: char)
    requires place in t && id !in t
    ensures place in WithText(t, place, id, data) && TextAt(WithText(t, place, id, data), place) == TextAt(t, place) + [data]
  {
  }

  // ---------------------------------------------------------------------------------------------
  // Lineage

  ghost predicate Linked(t: Tree) {
    && (forall p, c :: Edge(t, p, c) ==> c in t && t[c].parent.Some?)
    && (forall c :: c in t && t[c].parent.Some? ==> Edge(t, t[c].parent.value, c))
  }

  // Every node has a rank above the ranks of the nodes that list it.
  ghost predicate Ranked(t: Tree, rank: map<NodeId, real>) {
    && (forall x :: x in t ==> x in rank)
    && (forall p, c :: Edge(t, p, c) ==> c in t && rank[p] < rank[c])
  }

  ghost predicate IsPath(t: Tree, path: seq<NodeId>) {
    path != [] && forall i :: 0 <= i < |path| - 1 ==> Edge(t, path[i], path[i + 1])
  }

  ghost predicate Leads(t: Tree, path: seq<NodeId>, r: NodeId, x: NodeId) {
    IsPath(t, path) && path[0] == r && path[|path| - 1] == x
  }

  ghost predicate Reaches(t: Tree, r: NodeId, x: NodeId) {
    exists path :: Leads(t, path, r, x)
  }

  ghost predicate Acyclic(t: Tree) {
    forall path :: IsPath(t, path) && |path| > 1 ==> path[0] != path[|path| - 1]
  }

  lemma {:induction false} RankAlong(t: Tree, rank: map<NodeId, real>, path: seq<NodeId>)
    requires Ranked(t, rank) && IsPath(t, path) && path[0] in rank
    ensures path[|path| - 1] in rank && rank[path[0]] <= rank[path[|path| - 1]]
    ensures |path| > 1 ==> rank[path[0]] < rank[path[|path| - 1]]
    decreases |path|
  {
    if |path| > 1 {
      assert Edge(t, path[0], path[1]);
      forall i | 0 <= i < |path[1..]| - 1
        ensures Edge(t, path[1..][i], path[1..][i + 1])
      {
        assert Edge(t, path[i + 1], path[i + 2]);
      }
      RankAlong(t, rank, path[1..]);
    }
  }

  /** A ranked tree has no cycle. */
  lemma RankedIsAcyclic(t: Tree, rank: map<NodeId, real>)
    requires Ranked(t, rank)
    ensures Acyclic(t)
  {
    forall path | IsPath(t, path) && |path| > 1
      ensures path[0] != path[|path| - 1]
    {
      assert Edge(t, path[0], path[1]);
      RankAlong(t, rank, path);
    }
  }

  lemma ReachesSelf(t: Tree, r: NodeId)
    ensures Reaches(t, r, r)
  {
    assert Leads(t, [r], r, r);
  }

  lemma ReachesStep(t: Tree, r: NodeId, x: NodeId, y: NodeId)
    requires Reaches(t, r, x) && Edge(t, x, y)
    ensures Reaches(t, r, y)
  {
    var path :| Leads(t, path, r, x);
    forall i | 0 <= i < |path + [y]| - 1
      ensures Edge(t, (path + [y])[i], (path + [y])[i + 1])
    {
      if i < |path| - 1 {
        assert Edge(t, path[i], path[i + 1]);
      }
    }
    assert Leads(t, path + [y], r, y);
  }

  // Every edge of the one tree is in the other, except perhaps edges to f.
  ghost predicate KeepsEdges(t: Tree, u: Tree, f: NodeId) {
    forall p, c :: Edge(t, p, c) && c != f ==> Edge(u, p, c)
  }

  lemma InitPath(t: Tree, path: seq<NodeId>)
    requires IsPath(t, path) && |path| > 1
    ensures IsPath(t, path[..|path| - 1]) && Edge(t, path[|path| - 2], path[|path| - 1])
  {
    var init := path[..|path| - 1];
    forall i | 0 <= i < |init| - 1
      ensures Edge(t, init[i], init[i + 1])
    {
      assert Edge(t, path[i], path[i + 1]);
    }
    var i := |path| - 2;
    assert Edge(t, path[i], path[i + 1]);
  }

  lemma {:induction false} StillReachesAlong(t: Tree, u: Tree, f: NodeId, path: seq<NodeId>)
    requires KeepsEdges(t, u, f) && IsPath(t, path) && Reaches(u, path[0], f)
    ensures Reaches(u, path[0], path[|path| - 1])
    decreases |path|
  {
    var x := path[|path| - 1];
    if |path| == 1 {
      ReachesSelf(u, x);
    } else if x != f {
      InitPath(t, path);
      StillReachesAlong(t, u, f, path[..|path| - 1]);
      ReachesStep(u, path[0], path[|path| - 2], x);
    }
  }

  /** Changing only edges to f keeps everything reachable as long as f itself stays reachable. */
  lemma StillReaches(t: Tree, u: Tree, f: NodeId, r: NodeId)
    requires KeepsEdges(t, u, f) && Reaches(u, r, f)
    ensures forall x :: Reaches(t, r, x) ==> Reaches(u, r, x)
  {
    forall x | Reaches(t, r, x)
      ensures Reaches(u, r, x)
    {
      var path :| Leads(t, path, r, x);
      StillReachesAlong(t, u, f, path);
    }
  }

  lemma {:induction false} ReachesAroundAlong(t: Tree, rank: map<NodeId, real>, u: Tree, f: NodeId, path: seq<NodeId>)
    requires Ranked(t, rank) && KeepsEdges(t, u, f) && IsPath(t, path) && f in rank
    requires path[|path| - 1] in rank && rank[path[|path| - 1]] < rank[f]
    ensures Reaches(u, path[0], path[|path| - 1])
    decreases |path|
  {
    if |path| == 1 {
      ReachesSelf(u, path[0]);
    } else {
      InitPath(t, path);
      ReachesAroundAlong(t, rank, u, f, path[..|path| - 1]);
      ReachesStep(u, path[0], path[|path| - 2], path[|path| - 1]);
    }
  }

  /** A node of lower rank than f is reached without passing through f. */
  lemma ReachesAround(t: Tree, rank: map<NodeId, real>, u: Tree, f: NodeId, r: NodeId, x: NodeId)
    requires Ranked(t, rank) && KeepsEdges(t, u, f) && Reaches(t, r, x)
    requires f in rank && x in rank && rank[x] < rank[f]
    ensures Reaches(u, r, x)
  {
    var path :| Leads(t, path, r, x);
    ReachesAroundAlong(t, rank, u, f, path);
  }

  // The stack is a chain of ever later nodes of the tree, all below its first.
  ghost predicate Lineage(t: Tree, rank: map<NodeId, real>, open: Stack) {
    && Linked(t) && Ranked(t, rank)
    && (forall i :: 0 <= i < |open| ==> open[i].id in t && t[open[i].id].content == ElementNode(open[i]))
    && (forall i, j :: 0 <= i < j < |open| ==> rank[open[i].id] < rank[open[j].id])
    && (forall i :: 0 <= i < |open| ==> Reaches(t, open[0].id, open[i].id))
  }

  /** No later entry of the stack is an ancestor of an earlier one. */
  lemma NoLaterAncestor(t: Tree, rank: map<NodeId, real>, open: Stack, i: nat, j: nat)
    requires Lineage(t, rank, open) && i < j < |open|
    ensures !Reaches(t, open[j].id, open[i].id)
  {
    if Reaches(t, open[j].id, open[i].id) {
      var path :| Leads(t, path, open[j].id, open[i].id);
      RankAlong(t, rank, path);
    }
  }

  // ---------------------------------------------------------------------------------------------
  // What each operation does to the edges

  lemma EdgesOfCreated(t: Tree, id: NodeId, content: Content)
    requires id !in t
    ensures forall p, c :: Edge(Created(t, id, content), p, c) <==> Edge(t, p, c)
  {
  }

  lemma EdgesOfAppended(t: Tree, p: NodeId, c: NodeId)
    requires p in t && c in t
    ensures forall a, b :: Edge(Appended(t, p, c), a, b) <==> Edge(t, a, b) || (a == p && b == c)
    ensures forall x :: x in t && x != p ==> Appended(t, p, c)[x].children == t[x].children
    ensures forall x :: x in t ==> Appended(t, p, c)[x].parent == if x == c then Some(p) else t[x].parent
    ensures forall x :: x in t ==> Appended(t, p, c)[x].content == t[x].content
  {
  }

  lemma {:induction false} WithoutFacts(s: seq<NodeId>, c: NodeId, x: NodeId)
    ensures x in Without(s, c) ==> x in s
    ensures x != c && x in s ==> x in Without(s, c)
  {
    if s != [] {
      WithoutFacts(s[1..], c, x);
    }
  }

  lemma EdgesOfUnparented(t: Tree, c: NodeId)
    requires c in t
    ensures forall a, b :: Edge(Unparented(t, c), a, b) ==> Edge(t, a, b)
    ensures KeepsEdges(t, Unparented(t, c), c)
    ensures Unparented(t, c).Keys == t.Keys
    ensures forall x :: x in t ==> Unparented(t, c)[x].parent == t[x].parent && Unparented(t, c)[x].content == t[x].content
  {
    forall a, b
      ensures Edge(Unparented(t, c), a, b) ==> Edge(t, a, b)
      ensures Edge(t, a, b) && b != c ==> Edge(Unparented(t, c), a, b)
    {
      if a in t {
        WithoutFacts(t[a].children, c, b);
      }
    }
  }

  lemma TakenStep(t: Tree, to: NodeId, from: NodeId, n: nat)
    requires from in t && n <= |t[from].children|
    ensures Taken(t, to, from, n) == if n == 0 then t else Appended(Taken(t, to, from, n - 1), to, t[from].children[n - 1])
  {
    hide Appended;
  }

  lemma {:induction false} EdgesOfTaken(t: Tree, to: NodeId, from: NodeId, n: nat)
    requires from in t && to in t && n <= |t[from].children|
    requires forall c :: c in t[from].children ==> c in t
    requires to != from && to !in t[from].children && from !in t[from].children
    ensures Taken(t, to, from, n).Keys == t.Keys && Taken(t, to, from, n)[from].children == t[from].children
    ensures forall a, b :: Edge(Taken(t, to, from, n), a, b) <==> Edge(t, a, b) || (a == to && b in t[from].children[..n])
    ensures forall x :: x in t ==> Taken(t, to, from, n)[x].parent == if x in t[from].children[..n] then Some(to) else t[x].parent
    ensures forall x :: x in t ==> Taken(t, to, from, n)[x].content == t[x].content
  {
    hide *;
    TakenStep(t, to, from, n);
    var children := t[from].children;
    if n > 0 {
      EdgesOfTaken(t, to, from, n - 1);
      assert children[n - 1] in children;
      EdgesOfAppended(Taken(t, to, from, n - 1), to, children[n - 1]);
      assert children[..n] == children[..n - 1] + [children[n - 1]];
    } else {
      assert children[..0] == [];
    }
  }

  // ---------------------------------------------------------------------------------------------
  // A new leaf

  function Grown(t: Tree, place: NodeId, id: NodeId, content: Content): Tree {
    Appended(Created(t, id, content), place, id)
  }

  // New elements, each the last child of the one before it.
  function Chained(t: Tree, top: NodeId, es: Stack): Tree {
    if es == [] then t
    else Grown(Chained(t, top, Below(es)), if |es| == 1 then top else Top(Below(es)).id, Top(es).id, ElementNode(Top(es)))
  }

  lemma GrownKeeps(t: Tree, rank: map<NodeId, real>, place: NodeId, id: NodeId, content: Content)
    requires Linked(t) && Ranked(t, rank) && place in t && id !in t
    ensures Linked(Grown(t, place, id, content)) && Ranked(Grown(t, place, id, content), rank[id := rank[place] + 1.0])
    ensures forall a, b :: Edge(Grown(t, place, id, content), a, b) <==> Edge(t, a, b) || (a == place && b == id)
    ensures forall r, x :: Reaches(t, r, x) ==> Reaches(Grown(t, place, id, content), r, x)
  {
    EdgesOfCreated(t, id, content);
    EdgesOfAppended(Created(t, id, content), place, id);
    var u := Grown(t, place, id, content);
    forall r, x | Reaches(t, r, x)
      ensures Reaches(u, r, x)
    {
      MoreReaches(t, u, r, x);
    }
  }

  lemma MoreReaches(t: Tree, u: Tree, r: NodeId, x: NodeId)
    requires Reaches(t, r, x) && forall a, b :: Edge(t, a, b) ==> Edge(u, a, b)
    ensures Reaches(u, r, x)
  {
    var path :| Leads(t, path, r, x);
    assert Leads(u, path, r, x);
  }

  /** A new element under the current node, pushed onto the stack. */
  lemma LineagePush(t: Tree, rank: map<NodeId, real>, open: Stack, e: Element)
    requires Lineage(t, rank, open) && open != [] && e.id !in t
    ensures Lineage(Grown(t, Top(open).id, e.id, ElementNode(e)), rank[e.id := rank[Top(open).id] + 1.0], open + [e])
  {
    var u, later := Grown(t, Top(open).id, e.id, ElementNode(e)), rank[e.id := rank[Top(open).id] + 1.0];
    GrownKeeps(t, rank, Top(open).id, e.id, ElementNode(e));
    ReachesStep(u, open[0].id, Top(open).id, e.id);
  }

  /** A new node that is not pushed. */
  lemma LineageGrow(t: Tree, rank: map<NodeId, real>, open: Stack, place: NodeId, id: NodeId, content: Content)
    requires Lineage(t, rank, open) && place in t && id !in t
    ensures Lineage(Grown(t, place, id, content), rank[id := rank[place] + 1.0], open)
  {
    GrownKeeps(t, rank, place, id, content);
  }

  lemma LineageText(t: Tree, rank: map<NodeId, real>, open: Stack, x: NodeId, data: string)
    requires Lineage(t, rank, open) && x in t && t[x].content.TextNode?
    ensures Lineage(t[x := t[x].(content := TextNode(data))], rank, open)
    ensures forall r, y :: Reaches(t, r, y) ==> Reaches(t[x := t[x].(content := TextNode(data))], r, y)
  {
    var u := t[x := t[x].(content := TextNode(data))];
    assert forall p, c :: Edge(u, p, c) <==> Edge(t, p, c);
    forall r, y | Reaches(t, r, y)
      ensures Reaches(u, r, y)
    {
      MoreReaches(t, u, r, y);
    }
    hide Edge;
  }

  /** Any selection from the stack that keeps its order and its first entry. */
  lemma LineageCut(t: Tree, rank: map<NodeId, real>, open: Stack, k: nat)
    requires Lineage(t, rank, open) && k <= |open|
    ensures Lineage(t, rank, open[..k])
  {
  }

  lemma LineageRemove(t: Tree, rank: map<NodeId, real>, open: Stack, k: nat)
    requires Lineage(t, rank, open) && 0 < k < |open|
    ensures Lineage(t, rank, Removed(open, k))
  {
  }

  // ---------------------------------------------------------------------------------------------
  // One round of the adoption agency

  function Moved(t: Tree, x: NodeId, p: NodeId): Tree {
    Appended(Unparented(t, x), p, x)
  }

  // The furthest block moved to the common ancestor, inside a clone if there is one.
  function Rehung(t: Tree, ancestor: NodeId, block: NodeId, clone: Option<Element>): Tree {
    match clone
    case None => Moved(t, block, ancestor)
    case Some(c) => Moved(Moved(Created(t, c.id, ElementNode(c)), block, c.id), c.id, ancestor)
  }

  // A new element takes the children of the block and becomes its last child.
  function Spliced(t: Tree, block: NodeId, e: Element): Tree {
    var u := Created(t, e.id, ElementNode(e));
    if block in u then Appended(Taken(u, e.id, block, |u[block].children|), block, e.id) else u
  }

  lemma MovedEdges(t: Tree, x: NodeId, p: NodeId)
    requires x in t && p in t
    ensures Moved(t, x, p).Keys == t.Keys
    ensures KeepsEdges(t, Moved(t, x, p), x) && Edge(Moved(t, x, p), p, x)
    ensures forall a, b :: Edge(Moved(t, x, p), a, b) ==> Edge(t, a, b) || (a == p && b == x)
    ensures forall y :: y in t ==> Moved(t, x, p)[y].parent == if y == x then Some(p) else t[y].parent
    ensures forall y :: y in t ==> Moved(t, x, p)[y].content == t[y].content
  {
    hide Edge;
    hide Unparented;
    EdgesOfUnparented(t, x);
    EdgesOfAppended(Unparented(t, x), p, x);
  }

  lemma MovedKeeps(t: Tree, rank: map<NodeId, real>, x: NodeId, p: NodeId)
    requires Linked(t) && Ranked(t, rank) && x in t && p in t && rank[p] < rank[x]
    ensures Linked(Moved(t, x, p)) && Ranked(Moved(t, x, p), rank)
  {
    hide Edge;
    hide Moved;
    MovedEdges(t, x, p);
  }

  lemma CreatedKeeps(t: Tree, rank: map<NodeId, real>, id: NodeId, content: Content, r: real)
    requires Linked(t) && Ranked(t, rank) && id !in t
    ensures Linked(Created(t, id, content)) && Ranked(Created(t, id, content), rank[id := r])
    ensures KeepsEdges(t, Created(t, id, content), id)
  {
    EdgesOfCreated(t, id, content);
  }

  function RankWith(rank: map<NodeId, real>, clone: Option<Element>, r: real): map<NodeId, real> {
    if clone.Some? then rank[clone.value.id := r] else rank
  }

  function Last(block: NodeId, clone: Option<Element>): NodeId {
    if clone.Some? then clone.value.id else block
  }

  ghost predicate CanRehang(t: Tree, rank: map<NodeId, real>, ancestor: NodeId, block: NodeId, clone: Option<Element>, r: real) {
    && Linked(t) && Ranked(t, rank) && ancestor in t && block in t && rank[ancestor] < rank[block]
    && (clone.Some? ==> clone.value.id !in t && rank[ancestor] < r < rank[block])
  }

  lemma RehungEdges(t: Tree, rank: map<NodeId, real>, ancestor: NodeId, block: NodeId, clone: Option<Element>, r: real)
    requires CanRehang(t, rank, ancestor, block, clone, r)
    ensures Linked(Rehung(t, ancestor, block, clone)) && Ranked(Rehung(t, ancestor, block, clone), RankWith(rank, clone, r))
    ensures KeepsEdges(t, Rehung(t, ancestor, block, clone), block)
    ensures Edge(Rehung(t, ancestor, block, clone), ancestor, Last(block, clone))
    ensures clone.Some? ==> Edge(Rehung(t, ancestor, block, clone), clone.value.id, block)
    ensures forall a, b :: Edge(Rehung(t, ancestor, block, clone), a, b) ==>
              Edge(t, a, b) || (a == ancestor && b == Last(block, clone)) || (clone.Some? && a == clone.value.id && b == block)
  {
    match clone
    case None =>
      MovedEdges(t, block, ancestor);
      MovedKeeps(t, rank, block, ancestor);
    case Some(c) =>
      var t1 := Created(t, c.id, ElementNode(c));
      var t2 := Moved(t1, block, c.id);
      CreatedKeeps(t, rank, c.id, ElementNode(c), r);
      MovedEdges(t1, block, c.id);
      MovedKeeps(t1, rank[c.id := r], block, c.id);
      MovedEdges(t2, c.id, ancestor);
      MovedKeeps(t2, rank[c.id := r], c.id, ancestor);
      EdgesOfCreated(t, c.id, ElementNode(c));
      hide Edge;
      hide Moved;
      hide Created;
      hide Linked;
  }

  lemma RehungNodes(t: Tree, ancestor: NodeId, block: NodeId, clone: Option<Element>)
    requires ancestor in t && block in t && (clone.Some? ==> clone.value.id !in t)
    ensures Rehung(t, ancestor, block, clone).Keys == t.Keys + if clone.Some? then {clone.value.id} else {}
    ensures forall x :: x in t ==> Rehung(t, ancestor, block, clone)[x].content == t[x].content
    ensures clone.Some? ==> Rehung(t, ancestor, block, clone)[clone.value.id].content == ElementNode(clone.value)
  {
    match clone
    case None =>
      MovedEdges(t, block, ancestor);
    case Some(c) =>
      var t1 := Created(t, c.id, ElementNode(c));
      MovedEdges(t1, block, c.id);
      MovedEdges(Moved(t1, block, c.id), c.id, ancestor);
      hide Edge;
      hide Moved;
      hide KeepsEdges;
  }

  /** Rehanging the furthest block loses nothing that was below the root. */
  lemma RehungReaches(t: Tree, rank: map<NodeId, real>, root: NodeId, ancestor: NodeId, block: NodeId, clone: Option<Element>, r: real)
    requires CanRehang(t, rank, ancestor, block, clone, r) && Reaches(t, root, ancestor)
    ensures forall x :: Reaches(t, root, x) ==> Reaches(Rehung(t, ancestor, block, clone), root, x)
    ensures clone.Some? ==> Reaches(Rehung(t, ancestor, block, clone), root, clone.value.id)
  {
    hide Rehung;
    hide Edge;
    hide Reaches;
    var u := Rehung(t, ancestor, block, clone);
    RehungEdges(t, rank, ancestor, block, clone, r);
    ReachesAround(t, rank, u, block, root, ancestor);
    ReachesStep(u, root, ancestor, Last(block, clone));
    if clone.Some? {
      ReachesStep(u, root, clone.value.id, block);
    }
    StillReaches(t, u, block, root);
  }

  ghost predicate CanSplice(t: Tree, rank: map<NodeId, real>, block: NodeId, e: Element, q: real) {
    && Linked(t) && Ranked(t, rank) && block in t && e.id !in t && rank[block] < q
    && forall c :: Edge(t, block, c) ==> q < rank[c]
  }

  lemma SplicedEdges(t: Tree, rank: map<NodeId, real>, block: NodeId, e: Element, q: real)
    requires CanSplice(t, rank, block, e, q)
    ensures Spliced(t, block, e).Keys == t.Keys + {e.id}
    ensures forall a, b :: Edge(Spliced(t, block, e), a, b) <==>
              Edge(t, a, b) || (a == e.id && Edge(t, block, b)) || (a == block && b == e.id)
    ensures forall x :: x in t ==> Spliced(t, block, e)[x].parent == if Edge(t, block, x) then Some(e.id) else t[x].parent
    ensures forall x :: x in t ==> Spliced(t, block, e)[x].content == t[x].content
    ensures Spliced(t, block, e)[e.id].parent == Some(block) && Spliced(t, block, e)[e.id].content == ElementNode(e)
  {
    hide Edge;
    hide Appended;
    hide Taken;
    hide Linked;
    hide Ranked;
    ChildrenOf(t, rank, block);
    var u := Created(t, e.id, ElementNode(e));
    var children := t[block].children;
    EdgesOfCreated(t, e.id, ElementNode(e));
    EdgesOfTaken(u, e.id, block, |children|);
    assert children[..|children|] == children;
    EdgesOfAppended(Taken(u, e.id, block, |children|), block, e.id);
  }

  lemma ChildrenOf(t: Tree, rank: map<NodeId, real>, x: NodeId)
    requires Linked(t) && Ranked(t, rank) && x in t
    ensures forall c :: c in t[x].children <==> Edge(t, x, c)
    ensures forall c :: c in t[x].children ==> c in t && c != x
  {
    assert !Edge(t, x, x);
    assert forall c :: c in t[x].children <==> Edge(t, x, c);
  }

  lemma SplicedKeeps(t: Tree, rank: map<NodeId, real>, block: NodeId, e: Element, q: real)
    requires CanSplice(t, rank, block, e, q)
    ensures Linked(Spliced(t, block, e)) && Ranked(Spliced(t, block, e), rank[e.id := q])
    ensures forall r, x :: Reaches(t, r, x) ==> Reaches(Spliced(t, block, e), r, x)
    ensures forall r :: Reaches(t, r, block) ==> Reaches(Spliced(t, block, e), r, e.id)
  {
    hide Spliced;
    SplicedEdges(t, rank, block, e, q);
    var u := Spliced(t, block, e);
    forall r, x | Reaches(t, r, x)
      ensures Reaches(u, r, x)
    {
      MoreReaches(t, u, r, x);
    }
    forall r | Reaches(t, r, block)
      ensures Reaches(u, r, e.id)
    {
      ReachesStep(u, r, block, e.id);
    }
  }

  // A rank above r and below the ranks of all the given nodes.
  ghost function Gap(rank: map<NodeId, real>, r: real, ids: seq<NodeId>): (q: real)
    requires forall i :: 0 <= i < |ids| ==> ids[i] in rank && r < rank[ids[i]]
    ensures r < q && forall i :: 0 <= i < |ids| ==> q < rank[ids[i]]
  {
    if ids == [] then r + 1.0
    else
      var q := Gap(rank, r, ids[1..]);
      var p := rank[ids[0]];
      assert forall i :: 0 < i < |ids| ==> ids[i] == ids[1..][i - 1];
      if q < p then q else (r + p) / 2.0
  }

  function Adopted(t: Tree, ancestor: NodeId, block: NodeId, clone: Option<Element>, e: Element): Tree {
    Spliced(Rehung(t, ancestor, block, clone), block, e)
  }

  lemma RehungBlock(t: Tree, rank: map<NodeId, real>, ancestor: NodeId, block: NodeId, clone: Option<Element>, r: real)
    requires CanRehang(t, rank, ancestor, block, clone, r)
    ensures block in Rehung(t, ancestor, block, clone)
    ensures forall c :: Edge(Rehung(t, ancestor, block, clone), block, c) <==> Edge(t, block, c)
    ensures !Edge(Rehung(t, ancestor, block, clone), block, block)
  {
    hide Rehung;
    hide Edge;
    RehungEdges(t, rank, ancestor, block, clone, r);
    RehungNodes(t, ancestor, block, clone);
    var u := Rehung(t, ancestor, block, clone);
    forall c
      ensures Edge(u, block, c) <==> Edge(t, block, c)
    {
    }
  }

  lemma {:induction false} NothingNewAlong(t: Tree, v: Tree, block: NodeId, added: set<NodeId>, e: NodeId, path: seq<NodeId>)
    requires IsPath(v, path) && Reaches(t, path[0], block) && e in added
    requires forall a, b :: Edge(t, a, b) ==> a !in added
    requires forall a, b :: Edge(v, a, b) ==> Edge(t, a, b) || b in added || b == block || (a == e && Edge(t, block, b))
    ensures path[|path| - 1] in added || Reaches(t, path[0], path[|path| - 1])
    decreases |path|
  {
    hide Edge;
    hide Reaches;
    var r, x := path[0], path[|path| - 1];
    if |path| == 1 {
      ReachesSelf(t, r);
    } else {
      InitPath(v, path);
      var y := path[|path| - 2];
      NothingNewAlong(t, v, block, added, e, path[..|path| - 1]);
      if Edge(t, y, x) {
        ReachesStep(t, r, y, x);
      } else if Edge(t, block, x) {
        ReachesStep(t, r, block, x);
      }
    }
  }

  /**
   One round of the adoption agency on the tree: it stays acyclic and keeps the parent a node knows in
   step with a list that names the node, and below the root it loses nothing and adds only the clones.
   */
  lemma AdoptionKeepsTree(t: Tree, rank: map<NodeId, real>, root: NodeId, ancestor: NodeId, block: NodeId,
                          clone: Option<Element>, r: real, e: Element, q: real)
    requires CanRehang(t, rank, ancestor, block, clone, r) && Reaches(t, root, ancestor) && Reaches(t, root, block)
    requires e.id !in t && (clone.Some? ==> clone.value.id != e.id)
    requires rank[block] < q && forall c :: Edge(t, block, c) ==> q < rank[c]
    ensures CanSplice(Rehung(t, ancestor, block, clone), RankWith(rank, clone, r), block, e, q)
    ensures Acyclic(Adopted(t, ancestor, block, clone, e)) && Linked(Adopted(t, ancestor, block, clone, e))
    ensures Ranked(Adopted(t, ancestor, block, clone, e), RankWith(rank, clone, r)[e.id := q])
    ensures forall x :: Reaches(t, root, x) ==> Reaches(Adopted(t, ancestor, block, clone, e), root, x)
    ensures Reaches(Adopted(t, ancestor, block, clone, e), root, e.id)
    ensures clone.Some? ==> Reaches(Adopted(t, ancestor, block, clone, e), root, clone.value.id)
    ensures forall x :: Reaches(Adopted(t, ancestor, block, clone, e), root, x) ==>
              Reaches(t, root, x) || x == e.id || (clone.Some? && x == clone.value.id)
  {
    var u := Rehung(t, ancestor, block, clone);
    var later := RankWith(rank, clone, r);
    RehungEdges(t, rank, ancestor, block, clone, r);
    RehungNodes(t, ancestor, block, clone);
    RehungBlock(t, rank, ancestor, block, clone, r);
    RehungReaches(t, rank, root, ancestor, block, clone, r);
    assert CanSplice(u, later, block, e, q);
    SplicedKeeps(u, later, block, e, q);
    SplicedEdges(u, later, block, e, q);
    var v := Adopted(t, ancestor, block, clone, e);
    assert v == Spliced(u, block, e);
    RankedIsAcyclic(v, later[e.id := q]);
    NothingNew(t, v, root, ancestor, block, clone, e);
  }

  lemma NothingNew(t: Tree, v: Tree, root: NodeId, ancestor: NodeId, block: NodeId, clone: Option<Element>, e: Element)
    requires Linked(t) && e.id !in t && (clone.Some? ==> clone.value.id !in t) && Reaches(t, root, block)
    requires forall a, b :: Edge(v, a, b) ==>
        || Edge(t, a, b) || b == Last(block, clone) || b == block || b == e.id || (a == e.id && Edge(t, block, b))
    ensures forall x :: Reaches(v, root, x) ==> Reaches(t, root, x) || x == e.id || (clone.Some? && x == clone.value.id)
  {
    var added := {e.id} + if clone.Some? then {clone.value.id} else {};
    forall x | Reaches(v, root, x)
      ensures Reaches(t, root, x) || x in added
    {
      var path :| Leads(v, path, root, x);
      NothingNewAlong(t, v, block, added, e.id, path);
    }
  }

  lemma LineageRehung(t: Tree, rank: map<NodeId, real>, open: Stack, f: nat, g: nat, clone: Option<Element>, r: real)
    requires Lineage(t, rank, open) && f < g < |open|
    requires CanRehang(t, rank, open[f].id, open[g].id, clone, r)
    ensures Lineage(Rehung(t, open[f].id, open[g].id, clone), RankWith(rank, clone, r), open)
    ensures clone.Some? ==> Reaches(Rehung(t, open[f].id, open[g].id, clone), open[0].id, clone.value.id)
  {
    hide Rehung;
    hide Linked;
    hide Ranked;
    hide Edge;
    hide Reaches;
    hide KeepsEdges;
    RehungEdges(t, rank, open[f].id, open[g].id, clone, r);
    RehungNodes(t, open[f].id, open[g].id, clone);
    RehungReaches(t, rank, open[0].id, open[f].id, open[g].id, clone, r);
    assert forall i :: 0 <= i < |open| ==> open[i].id in t && open[i].id in rank by { RanksOfStack(t, rank, open); }
  }

  lemma RanksOfStack(t: Tree, rank: map<NodeId, real>, open: Stack)
    requires Lineage(t, rank, open)
    ensures forall i :: 0 <= i < |open| ==> open[i].id in t && open[i].id in rank
    ensures forall x :: x in t ==> x in rank
  {
  }

  lemma LineageSpliced(t: Tree, rank: map<NodeId, real>, open: Stack, g: nat, e: Element, q: real)
    requires Lineage(t, rank, open) && g < |open| && CanSplice(t, rank, open[g].id, e, q)
    ensures Lineage(Spliced(t, open[g].id, e), rank[e.id := q], open)
    ensures Reaches(Spliced(t, open[g].id, e), open[0].id, e.id)
  {
    hide Spliced;
    hide Linked;
    hide Ranked;
    hide Edge;
    hide Reaches;
    SplicedEdges(t, rank, open[g].id, e, q);
    SplicedKeeps(t, rank, open[g].id, e, q);
    RanksOfStack(t, rank, open);
  }

  lemma LineageReplace(t: Tree, rank: map<NodeId, real>, open: Stack, k: nat, c: Element)
    requires Lineage(t, rank, open) && 0 < k < |open|
    requires c.id in t && t[c.id].content == ElementNode(c) && Reaches(t, open[0].id, c.id)
    requires rank[c.id] == rank[open[k].id]
    ensures Lineage(t, rank, open[k := c])
  {
    hide Linked;
    hide Ranked;
    hide Reaches;
    RanksOfStack(t, rank, open);
  }

  lemma LineageInsert(t: Tree, rank: map<NodeId, real>, open: Stack, k: nat, c: Element)
    requires Lineage(t, rank, open) && 0 < k <= |open|
    requires c.id in t && t[c.id].content == ElementNode(c) && Reaches(t, open[0].id, c.id)
    requires rank[open[k - 1].id] < rank[c.id] && (k < |open| ==> rank[c.id] < rank[open[k].id])
    ensures Lineage(t, rank, Inserted(open, k, c))
  {
    hide Linked;
    hide Ranked;
    hide Reaches;
    RanksOfStack(t, rank, open);
    var other := Inserted(open, k, c);
    forall i, j | 0 <= i < j < |other|
      ensures rank[other[i].id] < rank[other[j].id]
    {
    }
  }

  // ---------------------------------------------------------------------------------------------
  // Full consistency

  predicate NoRepeats(s: seq<NodeId>) {
    forall i, j :: 0 <= i < j < |s| ==> s[i] != s[j]
  }

  // Every node is listed once, by the parent it knows and no other.
  ghost predicate Consistent(t: Tree) {
    && Linked(t)
    && (forall p: NodeId, c: NodeId :: Edge(t, p, c) ==> t[c].parent == Some(p))
    && (forall p :: p in t ==> NoRepeats(t[p].children))
  }

  lemma {:induction false} WithoutOnly(s: seq<NodeId>, c: NodeId)
    requires NoRepeats(s)
    ensures c !in Without(s, c) && NoRepeats(Without(s, c))
  {
    if s != [] && s[0] != c {
      var rest := Without(s[1..], c);
      WithoutOnly(s[1..], c);
      forall i | 0 <= i < |rest|
        ensures rest[i] != s[0]
      {
        WithoutFacts(s[1..], c, rest[i]);
      }
    } else if s != [] {
      assert forall i :: 0 <= i < |s[1..]| ==> s[1..][i] == s[i + 1];
    }
  }

  lemma MovedConsistent(t: Tree, x: NodeId, p: NodeId)
    requires Consistent(t) && x in t && p in t
    ensures Consistent(Moved(t, x, p))
  {
    hide Moved;
    hide Edge;
    hide NoRepeats;
    MovedEdges(t, x, p);
    MovedLists(t, x, p);
    var u := Moved(t, x, p);
    forall a: NodeId, b: NodeId | Edge(u, a, b)
      ensures u[b].parent == Some(a)
    {
      assert b != x ==> Edge(t, a, b);
    }
  }

  lemma MovedLists(t: Tree, x: NodeId, p: NodeId)
    requires Consistent(t) && x in t && p in t
    ensures forall a :: Edge(Moved(t, x, p), a, x) ==> a == p
    ensures forall a :: a in Moved(t, x, p) ==> NoRepeats(Moved(t, x, p)[a].children)
  {
    hide Linked;
    var base := Unparented(t, x);
    forall a | a in t
      ensures x !in base[a].children && NoRepeats(base[a].children)
    {
      assert x in t[a].children ==> Edge(t, a, x);
      WithoutOnly(t[a].children, x);
    }
  }

  lemma GrownConsistent(t: Tree, place: NodeId, id: NodeId, content: Content)
    requires Consistent(t) && place in t && id !in t
    ensures Consistent(Grown(t, place, id, content))
  {
    GrownLists(t, place, id, content);
    GrownLinked(t, place, id, content);
    var v := Grown(t, place, id, content);
    hide Grown;
    hide Edge;
    hide NoRepeats;
    forall p: NodeId, c: NodeId | Edge(v, p, c)
      ensures v[c].parent == Some(p)
    {
      assert Edge(t, p, c) || (p == place && c == id);
    }
  }

  lemma GrownLinked(t: Tree, place: NodeId, id: NodeId, content: Content)
    requires Linked(t) && place in t && id !in t
    ensures Linked(Grown(t, place, id, content))
    ensures forall a, b :: Edge(Grown(t, place, id, content), a, b) <==> Edge(t, a, b) || (a == place && b == id)
    ensures forall x :: x in t ==> Grown(t, place, id, content)[x].parent == t[x].parent
    ensures Grown(t, place, id, content)[id].parent == Some(place)
  {
    hide Edge;
    hide Appended;
    EdgesOfCreated(t, id, content);
    EdgesOfAppended(Created(t, id, content), place, id);
    assert Created(t, id, content)[id].parent == None;
  }

  lemma GrownLists(t: Tree, place: NodeId, id: NodeId, content: Content)
    requires Consistent(t) && place in t && id !in t
    ensures Grown(t, place, id, content).Keys == t.Keys + {id}
    ensures forall a :: a in Grown(t, place, id, content) ==> NoRepeats(Grown(t, place, id, content)[a].children)
  {
    assert !Edge(t, place, id);
    hide Linked;
    hide Edge;
  }

  lemma NoChildren(t: Tree, x: NodeId)
    requires x in t
    ensures t[x].children == [] <==> forall c :: !Edge(t, x, c)
  {
    if t[x].children != [] {
      assert Edge(t, x, t[x].children[0]);
    }
  }

  lemma RehungConsistent(t: Tree, ancestor: NodeId, block: NodeId, clone: Option<Element>)
    requires Consistent(t) && ancestor in t && block in t && (clone.Some? ==> clone.value.id !in t)
    ensures Consistent(Rehung(t, ancestor, block, clone))
  {
    match clone
    case None => MovedConsistent(t, block, ancestor);
    case Some(c) =>
      var t1 := Created(t, c.id, ElementNode(c));
      EdgesOfCreated(t, c.id, ElementNode(c));
      assert Consistent(t1) by { hide Edge; }
      MovedConsistent(t1, block, c.id);
      MovedEdges(t1, block, c.id);
      MovedConsistent(Moved(t1, block, c.id), c.id, ancestor);
  }

  /**
   After a round of the adoption agency every node is still listed by its own parent alone exactly if
   the furthest block had no children: the block goes on listing children it has handed over.
   */
  lemma ConsistentIffChildless(t: Tree, rank: map<NodeId, real>, ancestor: NodeId, block: NodeId,
                               clone: Option<Element>, r: real, e: Element, q: real)
    requires Consistent(t) && CanRehang(t, rank, ancestor, block, clone, r)
    requires CanSplice(Rehung(t, ancestor, block, clone), RankWith(rank, clone, r), block, e, q)
    ensures Consistent(Adopted(t, ancestor, block, clone, e)) <==> t[block].children == []
  {
    var u := Rehung(t, ancestor, block, clone);
    RehungConsistent(t, ancestor, block, clone);
    RehungBlock(t, rank, ancestor, block, clone, r);
    SplicedEdges(u, RankWith(rank, clone, r), block, e, q);
    SplicedKeeps(u, RankWith(rank, clone, r), block, e, q);
    NoChildren(t, block);
    NoChildren(u, block);
    hide Rehung;
    hide Spliced;
    hide Edge;
    hide NoRepeats;
    if t[block].children == [] {
      ChildlessSplice(u, block, e);
    } else {
      var c :| Edge(u, block, c);
      assert Edge(Spliced(u, block, e), block, c) && Spliced(u, block, e)[c].parent == Some(e.id);
    }
  }

  lemma ChildlessSplice(u: Tree, block: NodeId, e: Element)
    requires Consistent(u) && block in u && e.id !in u && u[block].children == []
    ensures Consistent(Spliced(u, block, e))
  {
    GrownConsistent(u, block, e.id, ElementNode(e));
    assert Spliced(u, block, e) == Grown(u, block, e.id, ElementNode(e));
  }

  // ---------------------------------------------------------------------------------------------
  // The nodes of an adoption

  lemma {:induction false} TakenList(t: Tree, to: NodeId, from: NodeId, n: nat)
    requires from in t && to in t && n <= |t[from].children|
    requires forall c :: c in t[from].children ==> c in t
    requires to != from && to !in t[from].children && from !in t[from].children
    ensures Taken(t, to, from, n).Keys == t.Keys
    ensures Taken(t, to, from, n)[to].children == t[to].children + t[from].children[..n]
    ensures forall x :: x in t && x != to ==> Taken(t, to, from, n)[x].children == t[x].children
  {
    hide *;
    TakenStep(t, to, from, n);
    var children := t[from].children;
    if n > 0 {
      TakenList(t, to, from, n - 1);
      assert children[n - 1] in children;
      AppendedList(Taken(t, to, from, n - 1), to, children[n - 1]);
      assert children[..n] == children[..n - 1] + [children[n - 1]];
    } else {
      assert children[..0] == [];
    }
  }

  lemma AppendedList(t: Tree, p: NodeId, c: NodeId)
    requires p in t && c in t
    ensures Appended(t, p, c)[p].children == t[p].children + [c]
    ensures forall x :: x in t && x != p ==> Appended(t, p, c)[x].children == t[x].children
    ensures forall x :: x in t ==> Appended(t, p, c)[x].parent == if x == c then Some(p) else t[x].parent
    ensures forall x :: x in t ==> Appended(t, p, c)[x].content == t[x].content
  {
  }

  lemma MovedList(t: Tree, x: NodeId, p: NodeId)
    requires x in t && p in t && x != p && t[x].parent != Some(x)
    ensures p in Moved(t, x, p) && x in Moved(t, x, p)
    ensures Moved(t, x, p)[x] == t[x].(parent := Some(p))
    ensures Moved(t, x, p)[p].children == (if t[x].parent == Some(p) then Without(t[p].children, x) else t[p].children) + [x]
  {
    hide Without;
  }

  /** What taking over the children of the block comes to, node by node. */
  lemma SplicedList(t: Tree, block: NodeId, e: Element)
    requires block in t && e.id !in t && forall c :: c in t[block].children ==> c in t && c != block
    ensures var u := Spliced(t, block, e);
            && block in u && u[block] == t[block].(children := t[block].children + [e.id])
            && e.id in u && u[e.id] == Node(ElementNode(e), Some(block), t[block].children)
            && (forall c :: c in t[block].children ==> c in u && u[c] == t[c].(parent := Some(e.id)))
            && (forall x :: x in t && x != block && x !in t[block].children ==> x in u && u[x] == t[x])
  {
    hide Appended;
    hide Taken;
    var u := Created(t, e.id, ElementNode(e));
    var children := t[block].children;
    assert children[..|children|] == children;
    TakenList(u, e.id, block, |children|);
    EdgesOfTaken(u, e.id, block, |children|);
    AppendedList(Taken(u, e.id, block, |children|), block, e.id);
  }

  // The block, or the clone around it, ends the list of the common ancestor.
  lemma RehungList(t: Tree, ancestor: NodeId, block: NodeId, clone: Option<Element>)
    requires ancestor in t && block in t && ancestor != block && t[block].parent != Some(block) && (clone.Some? ==> clone.value.id !in t)
    ensures var u := Rehung(t, ancestor, block, clone);
            && block in u && u[block] == t[block].(parent := Some(Last(ancestor, clone)))
            && (clone.Some? ==> clone.value.id in u && u[clone.value.id] == Node(ElementNode(clone.value), Some(ancestor), [block]))
            && ancestor in u && |u[ancestor].children| > 0 && u[ancestor].children[|u[ancestor].children| - 1] == Last(block, clone)
  {
    hide Moved;
    match clone
    case None =>
      MovedList(t, block, ancestor);
    case Some(c) =>
      var t1 := Created(t, c.id, ElementNode(c));
      var t2 := Moved(t1, block, c.id);
      MovedList(t1, block, c.id);
      MovedEdges(t1, block, c.id);
      MovedList(t2, c.id, ancestor);
      MovedOthers(t2, c.id, ancestor, block);
      hide Edge;
  }

  lemma MovedOthers(t: Tree, x: NodeId, p: NodeId, y: NodeId)
    requires x in t && p in t && y in t && y != x && y != p && t[x].parent == None
    ensures y in Moved(t, x, p) && Moved(t, x, p)[y] == t[y]
  {
  }
}
