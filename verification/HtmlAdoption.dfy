/**
 The adoption agency: which formatting element and furthest block one of its rounds selects, what the
 round does to the stack, the list and the tree, and what it keeps.
 */
module HtmlAdoption {
  import opened Wrappers
  import opened HtmlNames
  import opened HtmlStack
  import opened HtmlFormatting
  import opened HtmlTree
  import opened HtmlState

  // ---------------------------------------------------------------------------------------------
  // What a round selects

  // The lowest special element above the one at f, or -1.
  function FurthestBlock(open: Stack, f: nat): (g: int)
    requires f < |open|
    ensures g == -1 || f < g < |open|
    ensures g >= 0 ==> IsSpecial(open[g].name)
    ensures forall i :: f < i < (if g >= 0 then g else |open|) ==> !IsSpecial(open[i].name)
  {
    if f == |open| - 1 then -1
    else
      var g := FurthestBlock(Below(open), f);
      if g >= 0 then g else if IsSpecial(Top(open).name) then |open| - 1 else -1
  }

  lemma {:induction false} FurthestBlockIs(open: Stack, f: nat, g: int)
    requires f < |open| && (g == -1 || f < g < |open|)
    requires g >= 0 ==> IsSpecial(open[g].name)
    requires forall i :: f < i < (if g >= 0 then g else |open|) ==> !IsSpecial(open[i].name)
    ensures FurthestBlock(open, f) == g
  {
    if f < |open| - 1 {
      FurthestBlockIs(Below(open), f, if g == |open| - 1 then -1 else g);
    }
  }

  datatype Plan =
    | NoEntry                            // act as for any other end tag
    | Forget(k: nat)                     // the entry's element is not open
    | OutOfScope
    | CloseAll(k: nat, f: nat)           // nothing special above the element
    | Rehang(k: nat, f: nat, g: nat)     // entry, its element, the furthest block

  function PlanOf(open: Stack, active: Entries, name: Name): (plan: Plan)
    ensures plan.Rehang? ==> plan.f < plan.g < |open| && plan.k < |active| && LastMarker(active) < plan.k
    ensures plan.Rehang? || plan.CloseAll? ==>
              && plan.f < |open| && plan.k < |active| && active[plan.k].Formatting? && LastMarker(active) < plan.k
              && active[plan.k].element == open[plan.f] && open[plan.f].name == name
    ensures plan.Rehang? || plan.CloseAll? ==> InScope(open, {name}, Ordinary) && forall i :: plan.k < i < |active| ==> active[i].element.name != name
    ensures plan.Rehang? ==> IsSpecial(open[plan.g].name) && forall i :: plan.f < i < plan.g ==> !IsSpecial(open[i].name)
    ensures plan.CloseAll? ==> forall i :: plan.f < i < |open| ==> !IsSpecial(open[i].name)
    ensures plan.Forget? ==> plan.k < |active| && active[plan.k].Formatting? && active[plan.k].element !in open
    ensures plan.NoEntry? <==> forall i :: LastMarker(active) < i < |active| ==> active[i].element.name != name
  {
    var k := LastNamed(active, name);
    if k < 0 then NoEntry
    else
      var f := IndexOf(open, active[k].element);
      if f < 0 then Forget(k)
      else if !InScope(open, {name}, Ordinary) then OutOfScope
      else
        var g := FurthestBlock(open, f);
        if g < 0 then CloseAll(k, f) else Rehang(k, f, g)
  }

  /** The selected element is inside the current body, cell or caption: above its anchor. */
  lemma PlanStaysInside(open: Stack, active: Entries, name: Name)
    requires Balanced(open, active) && IsFlow(ZoneOf(open)) && IsFormatting(name)
    ensures PlanOf(open, active, name).Rehang? || PlanOf(open, active, name).CloseAll? ==>
              Anchor(open) < PlanOf(open, active, name).f
  {
    var plan := PlanOf(open, active, name);
    AnchorOfFlow(open);
    if plan.Rehang? || plan.CloseAll? {
      NothingMarkedAbove(open, active, plan.k, plan.f);
      assert ZoneOf(open).BodyZone? || TakesMarker(open[Anchor(open)].name);
    }
  }

  // ---------------------------------------------------------------------------------------------
  // What a round leaves behind

  // The element right above the formatting element's end of the stack, below the block: cloned if it
  // has an entry, dropped if it has none, and left alone if it is the formatting element.
  datatype Inner = Same | Dropped | Cloned(q: nat)

  function InnerOf(open: Stack, active: Entries, f: nat, g: nat): (inner: Inner)
    requires f < g < |open|
    ensures inner.Cloned? ==> inner.q < |active| && active[inner.q].Formatting? && active[inner.q].element == open[g - 1]
    ensures !inner.Same? ==> f < g - 1
  {
    if g - 1 == f then Same
    else if EntryOf(active, open[g - 1]) < 0 then Dropped
    else Cloned(EntryOf(active, open[g - 1]))
  }

  function CloneOf(active: Entries, inner: Inner, next: NodeId): Option<Element>
    requires inner.Cloned? ==> inner.q < |active| && active[inner.q].Formatting?
  {
    if inner.Cloned? then Some(NewElement(next, active[inner.q].tag)) else None
  }

  // The identity the element made for the formatting element's token gets, and that of its entry.
  function FreshId(inner: Inner, next: NodeId): NodeId {
    if inner.Cloned? then next + 1 else next
  }

  function StackInside(open: Stack, active: Entries, f: nat, g: nat, inner: Inner, next: NodeId): Stack
    requires f < g < |open| && inner == InnerOf(open, active, f, g)
  {
    match inner
    case Same => open
    case Dropped => Removed(open, g - 1)
    case Cloned(q) => open[g - 1 := NewElement(next, active[q].tag)]
  }

  function StackAfter(open: Stack, active: Entries, k: nat, f: nat, g: nat, next: NodeId): Stack
    requires f < g < |open| && k < |active| && active[k].Formatting?
  {
    var inner := InnerOf(open, active, f, g);
    var made := NewElement(FreshId(inner, next), active[k].tag);
    Inserted(Removed(StackInside(open, active, f, g, inner, next), f), if inner.Dropped? then g - 1 else g, made)
  }

  function ListInside(active: Entries, inner: Inner, next: NodeId): Entries
    requires inner.Cloned? ==> inner.q < |active| && active[inner.q].Formatting?
  {
    if inner.Cloned? then active[inner.q := active[inner.q].(element := NewElement(next, active[inner.q].tag))] else active
  }

  // The new entry goes after the bookmark: the entry of the clone, or else the one before the old entry.
  function ListAfter(open: Stack, active: Entries, k: nat, f: nat, g: nat, next: NodeId): Entries
    requires f < g < |open| && 0 < k < |active| && active[k].Formatting?
  {
    var inner := InnerOf(open, active, f, g);
    var made := NewElement(FreshId(inner, next), active[k].tag);
    var entry := Formatting(FreshId(inner, next) + 1, made, active[k].tag);
    Inserted(Removed(ListInside(active, inner, next), k), Bookmark(inner, k), entry)
  }

  // One past the place of the bookmark once the old entry is gone.
  function Bookmark(inner: Inner, k: nat): nat
    requires k > 0
  {
    if inner.Cloned? then (if inner.q < k then inner.q + 1 else inner.q) else k
  }

  function TreeAfter(t: Tree, open: Stack, active: Entries, k: nat, f: nat, g: nat, next: NodeId): Tree
    requires 0 < f < g < |open| && k < |active| && active[k].Formatting?
  {
    var inner := InnerOf(open, active, f, g);
    Adopted(t, open[f - 1].id, open[g].id, CloneOf(active, inner, next), NewElement(FreshId(inner, next), active[k].tag))
  }

  // ---------------------------------------------------------------------------------------------
  // The algorithm as a function: what a round does, and what a number of rounds do

  datatype Snapshot = Snapshot(open: Stack, active: Entries, tree: Tree, next: NodeId)

  // The round rehangs a block, so there is another one.
  predicate GoesOn(s: Snapshot, name: Name) {
    var plan := PlanOf(s.open, s.active, name);
    plan.Rehang? && plan.k > 0
  }

  function RoundOn(s: Snapshot, name: Name): Snapshot {
    match PlanOf(s.open, s.active, name)
    case NoEntry => if OtherMatch(s.open, name) < 0 then s else s.(open := s.open[..OtherMatch(s.open, name)])
    case Forget(k) => s.(active := Removed(s.active, k))
    case OutOfScope => s
    case CloseAll(k, f) => s.(open := s.open[..f], active := Removed(s.active, k))
    case Rehang(k, f, g) =>
      if k == 0 || f == 0 then s
      else Snapshot(StackAfter(s.open, s.active, k, f, g, s.next), ListAfter(s.open, s.active, k, f, g, s.next),
                    TreeAfter(s.tree, s.open, s.active, k, f, g, s.next), FreshId(InnerOf(s.open, s.active, f, g), s.next) + 2)
  }

  function RoundOutcome(s: Snapshot, name: Name): Outcome {
    match PlanOf(s.open, s.active, name)
    case NoEntry => Done(OtherMatch(s.open, name) < 0)
    case OutOfScope => Done(true)
    case Rehang(k, _, _) => if k == 0 then Failed(BeforeFirstEntry) else Done(false)
    case _ => Done(false)
  }

  function Rounds(n: nat, s: Snapshot, name: Name): Snapshot {
    if n == 0 then s else if GoesOn(s, name) then Rounds(n - 1, RoundOn(s, name), name) else RoundOn(s, name)
  }

  function RoundsOutcome(n: nat, s: Snapshot, name: Name): Outcome {
    if n == 0 then Done(false) else if GoesOn(s, name) then RoundsOutcome(n - 1, RoundOn(s, name), name) else RoundOutcome(s, name)
  }

  lemma RoundsUnfold(n: nat, s: Snapshot, name: Name)
    ensures Rounds(n, s, name) == if n == 0 then s else if GoesOn(s, name) then Rounds(n - 1, RoundOn(s, name), name) else RoundOn(s, name)
    ensures RoundsOutcome(n, s, name) ==
            if n == 0 then Done(false) else if GoesOn(s, name) then RoundsOutcome(n - 1, RoundOn(s, name), name) else RoundOutcome(s, name)
  {
    hide RoundOn;
    hide GoesOn;
    hide RoundOutcome;
  }

  // ---------------------------------------------------------------------------------------------
  // When the agency fails

  // The bookmark would go before the first entry of the list.
  predicate LooksBefore(open: Stack, active: Entries, name: Name) {
    var plan := PlanOf(open, active, name);
    plan.Rehang? && plan.k == 0
  }

  ghost predicate OwnNames(active: Entries) {
    forall p :: 0 <= p < |active| && active[p].Formatting? ==> active[p].element.name == active[p].tag.name
  }

  /**
   The adoption agency fails exactly if the formatting element it selects first has the first entry of the
   list and something special above it; then it has changed nothing.  No later round can fail.
   */
  lemma {:induction false} AgencyFailsIff(n: nat, s: Snapshot, name: Name)
    requires OwnNames(s.active)
    ensures RoundsOutcome(n, s, name).Failed? <==> n > 0 && LooksBefore(s.open, s.active, name)
    ensures RoundsOutcome(n, s, name).Failed? ==> RoundsOutcome(n, s, name) == Failed(BeforeFirstEntry) && Rounds(n, s, name) == s
    ensures !RoundsOutcome(n, s, name).Reprocess?
  {
    hide *;
    RoundsUnfold(n, s, name);
    RoundFailsIff(s, name);
    if n > 0 && GoesOn(s, name) {
      AgencyFailsIff(n - 1, RoundOn(s, name), name);
    }
  }

  lemma RoundFailsIff(s: Snapshot, name: Name)
    requires OwnNames(s.active)
    ensures RoundOutcome(s, name).Failed? <==> LooksBefore(s.open, s.active, name)
    ensures LooksBefore(s.open, s.active, name) ==> RoundOutcome(s, name) == Failed(BeforeFirstEntry) && !GoesOn(s, name) && RoundOn(s, name) == s
    ensures GoesOn(s, name) ==> OwnNames(RoundOn(s, name).active) && !LooksBefore(RoundOn(s, name).open, RoundOn(s, name).active, name)
    ensures !RoundOutcome(s, name).Reprocess?
  {
    hide PlanOf;
    hide OtherMatch;
    hide StackAfter;
    hide TreeAfter;
    hide ListAfter;
    hide LastMarker;
    hide OwnNames;
    hide Bookmark;
    hide InnerOf;
    var plan := PlanOf(s.open, s.active, name);
    if GoesOn(s, name) && plan.f > 0 {
      var list := ListAfter(s.open, s.active, plan.k, plan.f, plan.g, s.next);
      NewEntryLater(s.open, s.active, plan.k, plan.f, plan.g, s.next);
      FirstIsNotLast(StackAfter(s.open, s.active, plan.k, plan.f, plan.g, s.next), list,
                     Bookmark(InnerOf(s.open, s.active, plan.f, plan.g), plan.k), name);
    }
  }

  // A round puts the new entry past the first place of the list.
  lemma NewEntryLater(open: Stack, active: Entries, k: nat, f: nat, g: nat, next: NodeId)
    requires f < g < |open| && 0 < k < |active| && active[k].Formatting? && OwnNames(active)
    ensures var list, b := ListAfter(open, active, k, f, g, next), Bookmark(InnerOf(open, active, f, g), k);
            && OwnNames(list) && 0 < b < |list| && list[b].Formatting? && list[b].element.name == active[k].element.name
  {
    hide InnerOf;
    hide Inserted;
    hide Removed;
    var inner := InnerOf(open, active, f, g);
    var inside := ListInside(active, inner, next);
    assert |inside| == |active| && OwnNames(inside);
    OwnNamesMoved(inside, k, Bookmark(inner, k), Formatting(FreshId(inner, next) + 1, NewElement(FreshId(inner, next), active[k].tag), active[k].tag));
  }

  lemma OwnNamesMoved(active: Entries, k: nat, b: nat, entry: Entry)
    requires OwnNames(active) && k < |active| && b < |active| && entry.Formatting? && entry.element.name == entry.tag.name
    ensures OwnNames(Inserted(Removed(active, k), b, entry))
    ensures |Inserted(Removed(active, k), b, entry)| == |active| && Inserted(Removed(active, k), b, entry)[b] == entry
  {
    var rest := Removed(active, k);
    assert forall p :: 0 <= p < |rest| ==> rest[p] == active[if p < k then p else p + 1];
    assert OwnNames(rest);
    var list := Inserted(rest, b, entry);
    assert forall p :: 0 <= p < |list| ==> list[p] == if p < b then rest[p] else if p == b then entry else rest[p - 1];
  }

  lemma FirstIsNotLast(open: Stack, active: Entries, b: nat, name: Name)
    requires 0 < b < |active| && active[b].Formatting? && active[b].element.name == name
    ensures !LooksBefore(open, active, name)
  {
    hide IndexOf;
    hide InScope;
    hide FurthestBlock;
  }

  // ---------------------------------------------------------------------------------------------
  // The list keeps its length and its tokens

  function Tags(active: Entries): seq<Option<Tag>> {
    seq(|active|, i requires 0 <= i < |active| => if active[i].Marker? then None else Some(active[i].tag))
  }

  lemma ListKeepsTags(open: Stack, active: Entries, k: nat, f: nat, g: nat, next: NodeId)
    requires f < g < |open| && 0 < k < |active| && active[k].Formatting?
    ensures |ListAfter(open, active, k, f, g, next)| == |active|
    ensures multiset(Tags(ListAfter(open, active, k, f, g, next))) == multiset(Tags(active))
  {
    hide Tags;
    hide Inserted;
    hide Removed;
    var inner := InnerOf(open, active, f, g);
    var list, b := ListInside(active, inner, next), Bookmark(inner, k);
    if inner.Cloned? {
      TagsReplaced(active, inner.q, NewElement(next, active[inner.q].tag));
    }
    TagsRemoved(list, k);
    TagsInserted(Removed(list, k), b, Formatting(FreshId(inner, next) + 1, NewElement(FreshId(inner, next), active[k].tag), active[k].tag));
    MovedElement(Tags(active), k, b);
  }

  lemma TagsReplaced(active: Entries, q: nat, e: Element)
    requires q < |active| && active[q].Formatting?
    ensures Tags(active[q := active[q].(element := e)]) == Tags(active)
  {
  }

  lemma TagsRemoved(active: Entries, k: nat)
    requires k < |active|
    ensures Tags(Removed(active, k)) == Removed(Tags(active), k) && |Removed(active, k)| == |active| - 1
    ensures |Tags(active)| == |active| && Tags(active)[k] == if active[k].Marker? then None else Some(active[k].tag)
  {
  }

  lemma TagsInserted(active: Entries, b: nat, entry: Entry)
    requires b <= |active| && entry.Formatting?
    ensures Tags(Inserted(active, b, entry)) == Inserted(Tags(active), b, Some(entry.tag))
    ensures |Inserted(active, b, entry)| == |active| + 1
  {
  }

  lemma MovedElement<T>(s: seq<T>, k: nat, b: nat)
    requires k < |s| && b < |s|
    ensures multiset(Inserted(Removed(s, k), b, s[k])) == multiset(s)
  {
    var rest, one := Removed(s, k), multiset([s[k]]);
    assert s == s[..k] + [s[k]] + s[k + 1..];
    assert rest == rest[..b] + rest[b..];
    assert multiset(s) == multiset(s[..k]) + one + multiset(s[k + 1..]);
    assert multiset(s) == multiset(rest) + one;
    assert multiset(Inserted(rest, b, s[k])) == multiset(rest[..b]) + one + multiset(rest[b..]);
    assert multiset(rest) == multiset(rest[..b]) + multiset(rest[b..]);
  }

  lemma StackKeepsLength(open: Stack, active: Entries, k: nat, f: nat, g: nat, next: NodeId)
    requires f < g < |open| && k < |active| && active[k].Formatting?
    ensures |StackAfter(open, active, k, f, g, next)| == |open| - if InnerOf(open, active, f, g).Dropped? then 1 else 0
  {
  }

  // ---------------------------------------------------------------------------------------------
  // The round keeps the state sound

  // The setting of a round that does not stop early.
  ghost predicate InRound(open: Stack, active: Entries, t: Tree, rank: map<NodeId, real>, next: NodeId, k: nat, f: nat, g: nat) {
    && Sound(open, active, t, rank, next) && IsFlow(ZoneOf(open))
    && 0 < k < |active| && Anchor(open) < f < g < |open| && 0 < f
    && LastMarker(active) < k && active[k].Formatting? && active[k].element == open[f]
  }

  ghost function RankAfter(open: Stack, active: Entries, t: Tree, rank: map<NodeId, real>, next: NodeId, k: nat, f: nat, g: nat): map<NodeId, real>
    requires InRound(open, active, t, rank, next, k, f, g)
  {
    var inner := InnerOf(open, active, f, g);
    var clone := CloneOf(active, inner, next);
    CanRehangHere(open, active, t, rank, next, k, f, g);
    var later := RankWith(rank, clone, rank[open[g - 1].id]);
    later[FreshId(inner, next) := Slot(open, active, t, rank, next, k, f, g)]
  }

  // A rank between the block and everything below it, on the tree or on the stack.
  ghost function Slot(open: Stack, active: Entries, t: Tree, rank: map<NodeId, real>, next: NodeId, k: nat, f: nat, g: nat): (q: real)
    requires InRound(open, active, t, rank, next, k, f, g)
    ensures open[g].id in rank && rank[open[g].id] < q
    ensures forall c :: Edge(t, open[g].id, c) ==> c in t && c in rank && q < rank[c]
    ensures g + 1 < |open| ==> open[g + 1].id in rank && q < rank[open[g + 1].id]
  {
    RanksOfStack(t, rank, open);
    var block := open[g].id;
    assert forall i :: 0 <= i < |t[block].children| ==> Edge(t, block, t[block].children[i]);
    var lower := t[block].children + if g + 1 < |open| then [open[g + 1].id] else [];
    assert forall c :: Edge(t, block, c) ==> c in t[block].children;
    assert forall c :: c in t[block].children ==> c in lower;
    var q := Gap(rank, rank[block], lower);
    assert g + 1 < |open| ==> lower[|lower| - 1] == open[g + 1].id;
    q
  }

  lemma CanRehangHere(open: Stack, active: Entries, t: Tree, rank: map<NodeId, real>, next: NodeId, k: nat, f: nat, g: nat)
    requires InRound(open, active, t, rank, next, k, f, g)
    ensures open[f - 1].id in t && open[g].id in t && open[g - 1].id in rank
    ensures CanRehang(t, rank, open[f - 1].id, open[g].id, CloneOf(active, InnerOf(open, active, f, g), next), rank[open[g - 1].id])
    ensures FreshId(InnerOf(open, active, f, g), next) !in t && next !in t
  {
  }

  // The tree and the whole old stack, before the stack is changed.
  lemma TreeRound(open: Stack, active: Entries, t: Tree, rank: map<NodeId, real>, next: NodeId, k: nat, f: nat, g: nat)
    requires InRound(open, active, t, rank, next, k, f, g)
    ensures Lineage(TreeAfter(t, open, active, k, f, g, next), RankAfter(open, active, t, rank, next, k, f, g), open)
    ensures HasMade(TreeAfter(t, open, active, k, f, g, next), open, NewElement(FreshId(InnerOf(open, active, f, g), next), active[k].tag))
    ensures InnerOf(open, active, f, g).Cloned? ==>
              HasMade(TreeAfter(t, open, active, k, f, g, next), open, NewElement(next, active[InnerOf(open, active, f, g).q].tag))
  {
    hide Rehung;
    hide Spliced;
    hide Lineage;
    hide Linked;
    hide Ranked;
    hide Reaches;
    hide Edge;
    hide Grounded;
    hide Balanced;
    hide ZoneOf;
    hide Anchor;
    hide LastMarker;
    var inner := InnerOf(open, active, f, g);
    var clone := CloneOf(active, inner, next);
    var made := NewElement(FreshId(inner, next), active[k].tag);
    LineageIn(open, active, t, rank, next);
    CanRehangHere(open, active, t, rank, next, k, f, g);
    var r, q := rank[open[g - 1].id], Slot(open, active, t, rank, next, k, f, g);
    var u, later := Rehung(t, open[f - 1].id, open[g].id, clone), RankWith(rank, clone, r);
    CanSpliceHere(open, active, t, rank, next, k, f, g);
    LineageRehung(t, rank, open, f - 1, g, clone, r);
    LineageSpliced(u, later, open, g, made, q);
    RehungNodes(t, open[f - 1].id, open[g].id, clone);
    SplicedEdges(u, later, open[g].id, made, q);
    SplicedKeeps(u, later, open[g].id, made, q);
  }

  ghost predicate HasMade(t: Tree, open: Stack, e: Element) {
    open != [] && e.id in t && t[e.id].content == ElementNode(e) && Reaches(t, open[0].id, e.id)
  }

  lemma LineageIn(open: Stack, active: Entries, t: Tree, rank: map<NodeId, real>, next: NodeId)
    requires Sound(open, active, t, rank, next)
    ensures Lineage(t, rank, open)
  {
  }

  lemma CanSpliceHere(open: Stack, active: Entries, t: Tree, rank: map<NodeId, real>, next: NodeId, k: nat, f: nat, g: nat)
    requires InRound(open, active, t, rank, next, k, f, g)
    ensures var inner := InnerOf(open, active, f, g);
            var clone := CloneOf(active, inner, next);
            && open[g - 1].id in rank
            && CanSplice(Rehung(t, open[f - 1].id, open[g].id, clone), RankWith(rank, clone, rank[open[g - 1].id]), open[g].id,
                         NewElement(FreshId(inner, next), active[k].tag), Slot(open, active, t, rank, next, k, f, g))
  {
    hide Rehung;
    hide Edge;
    hide Grounded;
    hide Balanced;
    hide ZoneOf;
    hide Anchor;
    hide LastMarker;
    hide Linked;
    hide Ranked;
    hide KeepsEdges;
    var clone := CloneOf(active, InnerOf(open, active, f, g), next);
    CanRehangHere(open, active, t, rank, next, k, f, g);
    RehungEdges(t, rank, open[f - 1].id, open[g].id, clone, rank[open[g - 1].id]);
    RehungNodes(t, open[f - 1].id, open[g].id, clone);
    RehungBlock(t, rank, open[f - 1].id, open[g].id, clone, rank[open[g - 1].id]);
  }

  lemma RoundLineage(open: Stack, active: Entries, t: Tree, rank: map<NodeId, real>, next: NodeId, k: nat, f: nat, g: nat)
    requires InRound(open, active, t, rank, next, k, f, g)
    ensures Lineage(TreeAfter(t, open, active, k, f, g, next), RankAfter(open, active, t, rank, next, k, f, g),
                    StackAfter(open, active, k, f, g, next))
  {
    hide TreeAfter;
    hide RankAfter;
    hide Lineage;
    hide Sound;
    hide ZoneOf;
    hide Anchor;
    hide LastMarker;
    hide Reaches;
    TreeRound(open, active, t, rank, next, k, f, g);
    RanksAfter(open, active, t, rank, next, k, f, g);
    var v, later := TreeAfter(t, open, active, k, f, g, next), RankAfter(open, active, t, rank, next, k, f, g);
    var inner := InnerOf(open, active, f, g);
    var made := NewElement(FreshId(inner, next), active[k].tag);
    var inside := StackInside(open, active, f, g, inner, next);
    var at := if inner.Dropped? then g - 1 else g;
    InsideLineage(open, active, v, later, next, f, g);
    LineageRemove(v, later, inside, f);
    assert Removed(inside, f)[0] == inside[0] && Removed(inside, f)[at - 1] == open[g];
    assert at < |Removed(inside, f)| ==> Removed(inside, f)[at] == open[g + 1];
    LineageInsert(v, later, Removed(inside, f), at, made);
  }

  lemma InsideLineage(open: Stack, active: Entries, v: Tree, later: map<NodeId, real>, next: NodeId, f: nat, g: nat)
    requires 0 < f < g < |open| && Lineage(v, later, open)
    requires var inner := InnerOf(open, active, f, g);
             inner.Cloned? ==>
               && HasMade(v, open, NewElement(next, active[inner.q].tag))
               && next in later && open[g - 1].id in later && later[next] == later[open[g - 1].id]
    ensures Lineage(v, later, StackInside(open, active, f, g, InnerOf(open, active, f, g), next))
    ensures StackInside(open, active, f, g, InnerOf(open, active, f, g), next)[0] == open[0]
  {
    hide Lineage;
    hide Reaches;
    match InnerOf(open, active, f, g) {
      case Same =>
      case Dropped => LineageRemove(v, later, open, g - 1);
      case Cloned(q) => LineageReplace(v, later, open, g - 1, NewElement(next, active[q].tag));
    }
  }

  lemma RanksAfter(open: Stack, active: Entries, t: Tree, rank: map<NodeId, real>, next: NodeId, k: nat, f: nat, g: nat)
    requires InRound(open, active, t, rank, next, k, f, g)
    ensures var later, made := RankAfter(open, active, t, rank, next, k, f, g), FreshId(InnerOf(open, active, f, g), next);
            && made in later && open[g].id in later && later[open[g].id] < later[made]
            && (g + 1 < |open| ==> open[g + 1].id in later && later[made] < later[open[g + 1].id])
            && (InnerOf(open, active, f, g).Cloned? ==> next in later && open[g - 1].id in later && later[next] == later[open[g - 1].id])
            && 0 < f
  {
    hide Sound;
    hide Lineage;
    hide Edge;
    hide ZoneOf;
    hide Anchor;
    hide LastMarker;
    hide CanRehang;
    CanRehangHere(open, active, t, rank, next, k, f, g);
    LineageIn(open, active, t, rank, next);
    RanksOfStack(t, rank, open);
  }

  lemma RoundGrounded(open: Stack, active: Entries, t: Tree, rank: map<NodeId, real>, next: NodeId, k: nat, f: nat, g: nat)
    requires InRound(open, active, t, rank, next, k, f, g)
    ensures Grounded(StackAfter(open, active, k, f, g, next), ListAfter(open, active, k, f, g, next),
                     TreeAfter(t, open, active, k, f, g, next), RankAfter(open, active, t, rank, next, k, f, g),
                     FreshId(InnerOf(open, active, f, g), next) + 2)
  {
    hide *;
    InRoundFacts(open, active, t, rank, next, k, f, g);
    RoundLineage(open, active, t, rank, next, k, f, g);
    RoundNodes(open, active, t, rank, next, k, f, g);
    RoundList(open, active, t, rank, next, k, f, g);
    InRoundIsSound(open, active, t, rank, next, k, f, g);
    IdsBounded(open, active, t, rank, next, InnerOf(open, active, f, g), TreeAfter(t, open, active, k, f, g, next));
    GroundedIf(StackAfter(open, active, k, f, g, next), ListAfter(open, active, k, f, g, next),
               TreeAfter(t, open, active, k, f, g, next), RankAfter(open, active, t, rank, next, k, f, g),
               FreshId(InnerOf(open, active, f, g), next) + 2);
  }

  lemma InRoundIsSound(open: Stack, active: Entries, t: Tree, rank: map<NodeId, real>, next: NodeId, k: nat, f: nat, g: nat)
    requires InRound(open, active, t, rank, next, k, f, g)
    ensures Sound(open, active, t, rank, next)
  {
    hide Sound;
  }

  lemma IdsBounded(open: Stack, active: Entries, t: Tree, rank: map<NodeId, real>, next: NodeId, inner: Inner, u: Tree)
    requires Sound(open, active, t, rank, next)
    requires u.Keys == t.Keys + (if inner.Cloned? then {next} else {}) + {FreshId(inner, next)}
    ensures DOCUMENT in u && forall x :: x in u ==> x < FreshId(inner, next) + 2
  {
    hide Lineage;
    hide Balanced;
    hide WellFormed;
  }

  lemma GroundedIf(open: Stack, active: Entries, t: Tree, rank: map<NodeId, real>, next: NodeId)
    requires Lineage(t, rank, open) && ListBelow(active, next) && DOCUMENT in t && forall x :: x in t ==> x < next
    ensures Grounded(open, active, t, rank, next)
  {
    hide Lineage;
    hide WellFormed;
  }

  lemma RoundNodes(open: Stack, active: Entries, t: Tree, rank: map<NodeId, real>, next: NodeId, k: nat, f: nat, g: nat)
    requires InRound(open, active, t, rank, next, k, f, g)
    ensures var inner := InnerOf(open, active, f, g);
            TreeAfter(t, open, active, k, f, g, next).Keys ==
            t.Keys + (if inner.Cloned? then {next} else {}) + {FreshId(inner, next)}
  {
    hide Rehung;
    hide Spliced;
    hide Sound;
    hide ZoneOf;
    hide Anchor;
    hide Lineage;
    hide Edge;
    hide LastMarker;
    hide CanRehang;
    hide Slot;
    var inner := InnerOf(open, active, f, g);
    var clone := CloneOf(active, inner, next);
    CanRehangHere(open, active, t, rank, next, k, f, g);
    CanSpliceHere(open, active, t, rank, next, k, f, g);
    RehungNodes(t, open[f - 1].id, open[g].id, clone);
    SplicedEdges(Rehung(t, open[f - 1].id, open[g].id, clone), RankWith(rank, clone, rank[open[g - 1].id]), open[g].id,
                 NewElement(FreshId(inner, next), active[k].tag), Slot(open, active, t, rank, next, k, f, g));
  }

  ghost predicate ListBelow(active: Entries, next: NodeId) {
    && WellFormed(active)
    && (forall p :: 0 <= p < |active| ==> active[p].id < next)
    && (forall p :: 0 <= p < |active| && active[p].Formatting? ==> active[p].element.id < next)
  }

  lemma RoundList(open: Stack, active: Entries, t: Tree, rank: map<NodeId, real>, next: NodeId, k: nat, f: nat, g: nat)
    requires InRound(open, active, t, rank, next, k, f, g)
    ensures ListBelow(ListAfter(open, active, k, f, g, next), FreshId(InnerOf(open, active, f, g), next) + 2)
  {
    hide Sound;
    hide ListBelow;
    hide Inserted;
    hide Removed;
    hide ZoneOf;
    hide Anchor;
    hide LastMarker;
    hide IsFormatting;
    ListIsBelow(open, active, t, rank, next);
    var inner := InnerOf(open, active, f, g);
    var made := NewElement(FreshId(inner, next), active[k].tag);
    var list := ListInside(active, inner, next);
    if inner.Cloned? {
      BelowReplace(active, next, inner.q);
    }
    BookmarkPlace(open, active, t, rank, next, k, f, g);
    BelowMove(list, FreshId(inner, next), k, Bookmark(inner, k), active[k].tag);
  }

  // The bookmark comes after the last marker: what is above the formatting element has its entry there.
  lemma {:induction false} BookmarkPlace(open: Stack, active: Entries, t: Tree, rank: map<NodeId, real>, next: NodeId, k: nat, f: nat, g: nat)
    requires InRound(open, active, t, rank, next, k, f, g)
    ensures var inner := InnerOf(open, active, f, g);
            && LastMarker(active) < Bookmark(inner, k) < |active| && |ListInside(active, inner, next)| == |active|
            && LastMarker(ListInside(active, inner, next)) == LastMarker(active)
            && (inner.Cloned? ==> LastMarker(active) < inner.q && inner.q != k)
            && ListInside(active, inner, next)[k] == active[k]
            && BeforeMarkerBelow(open, active, f)
  {
    hide Grounded;
    hide ZoneOf;
    hide Anchor;
    hide Counted;
    hide Ordered;
    hide LastMarker;
    SoundIsDistinct(open, active, t, rank, next);
    AboveMarkers(open, active, k, f);
    var inner := InnerOf(open, active, f, g);
    if inner.Cloned? {
      assert IsOpenAt(open, active, inner.q, g - 1);
      assert active[inner.q].Formatting?;
    }
    LastMarkerIs(ListInside(active, inner, next), LastMarker(active));
  }

  lemma ListIsBelow(open: Stack, active: Entries, t: Tree, rank: map<NodeId, real>, next: NodeId)
    requires Sound(open, active, t, rank, next)
    ensures ListBelow(active, next)
    ensures forall p :: 0 <= p < |active| && active[p].Formatting? ==> IsFormatting(active[p].tag.name)
  {
    hide Lineage;
    hide Balanced;
  }

  lemma BelowReplace(active: Entries, next: NodeId, q: nat)
    requires ListBelow(active, next) && q < |active| && active[q].Formatting?
    ensures ListBelow(active[q := active[q].(element := NewElement(next, active[q].tag))], next + 1)
  {
    ArkReplace(active, q, NewElement(next, active[q].tag));
    hide Ark;
  }

  lemma {:induction false} BelowMove(active: Entries, next: NodeId, k: nat, b: nat, tag: Tag)
    requires ListBelow(active, next) && LastMarker(active) < k < |active| && LastMarker(active) < b < |active|
    requires active[k].Formatting? && tag == active[k].tag
    ensures ListBelow(Inserted(Removed(active, k), b, Formatting(next + 1, NewElement(next, tag), tag)), next + 2)
  {
    var rest := Removed(active, k);
    var f := FamilyOf(active[k].element);
    BelowRemove(active, next, k);
    LastMarkerWithout(active, k);
    KinWithout(active, k, f);
    assert active[..|active|] == active && Kin(active[..|active|], f) <= 3;
    assert OwnElement(active[k]) && IsFormatting(tag.name);
    hide ListBelow;
    BelowInsert(rest, next, b, tag);
  }

  lemma {:induction false} BelowRemove(active: Entries, next: NodeId, k: nat)
    requires ListBelow(active, next) && k < |active| && active[k].Formatting?
    ensures ListBelow(Removed(active, k), next)
  {
    ArkRemove(active, k);
    hide Ark;
    var rest := Removed(active, k);
    assert forall p :: 0 <= p < |rest| ==> rest[p] == active[if p < k then p else p + 1];
    hide Removed;
  }

  lemma EntriesInserted(active: Entries, b: nat, entry: Entry)
    requires b <= |active|
    ensures |Inserted(active, b, entry)| == |active| + 1
    ensures forall p :: 0 <= p <= |active| ==> Inserted(active, b, entry)[p] == if p < b then active[p] else if p == b then entry else active[p - 1]
  {
  }

  lemma EntriesRemoved(active: Entries, k: nat)
    requires k < |active|
    ensures |Removed(active, k)| == |active| - 1
    ensures forall p :: 0 <= p < |active| - 1 ==> Removed(active, k)[p] == active[if p < k then p else p + 1]
  {
  }

  lemma {:induction false} BelowInsert(active: Entries, next: NodeId, b: nat, tag: Tag)
    requires ListBelow(active, next) && LastMarker(active) < b <= |active| && IsFormatting(tag.name)
    requires Kin(active, FamilyOf(NewElement(next, tag))) < 3
    ensures ListBelow(Inserted(active, b, Formatting(next + 1, NewElement(next, tag), tag)), next + 2)
  {
    var entry := Formatting(next + 1, NewElement(next, tag), tag);
    ArkInsert(active, b, entry);
    OthersInserted(active, next, b, entry);
    hide Ark;
    hide LastMarker;
    hide Kin;
    hide Inserted;
    hide IsFormatting;
  }

  lemma OthersInserted(active: Entries, next: NodeId, b: nat, entry: Entry)
    requires ListBelow(active, next) && b <= |active| && entry.Formatting? && entry.id == next + 1 && entry.element.id == next && OwnElement(entry)
    ensures var list := Inserted(active, b, entry);
            && (forall p, q :: 0 <= p < q < |list| ==> list[p].id != list[q].id)
            && (forall p, q :: 0 <= p < q < |list| && list[p].Formatting? && list[q].Formatting? ==> list[p].element != list[q].element)
            && (forall p :: 0 <= p < |list| ==> list[p].id < next + 2)
            && (forall p :: 0 <= p < |list| && list[p].Formatting? ==> OwnElement(list[p]) && list[p].element.id < next + 2)
  {
    hide Ark;
    hide IsFormatting;
    EntriesInserted(active, b, entry);
    hide Inserted;
  }

  lemma RoundBalanced(open: Stack, active: Entries, t: Tree, rank: map<NodeId, real>, next: NodeId, k: nat, f: nat, g: nat)
    requires InRound(open, active, t, rank, next, k, f, g)
    ensures Balanced(StackAfter(open, active, k, f, g, next), ListAfter(open, active, k, f, g, next))
  {
    hide Balanced;
    hide Grounded;
    hide ZoneOf;
    hide Anchor;
    hide TakesMarker;
    hide InList;
    var inner := InnerOf(open, active, f, g);
    var made := NewElement(FreshId(inner, next), active[k].tag);
    var inside, list := StackInside(open, active, f, g, inner, next), ListInside(active, inner, next);
    var at, b := if inner.Dropped? then g - 1 else g, Bookmark(inner, k);
    InsideBalanced(open, active, t, rank, next, k, f, g);
    RoundOrder(open, active, t, rank, next, k, f, g);
    BalancedLeave(inside, list, k);
    BalancedEnter(inside, Removed(list, k), b, Formatting(made.id + 1, made, active[k].tag));
    BalancedRemove(inside, ListAfter(open, active, k, f, g, next), f);
    NothingTakenAfter(open, active, t, rank, next, k, f, g);
    BalancedInsert(Removed(inside, f), ListAfter(open, active, k, f, g, next), at, made);
  }

  // The new entry is the only one of its element and comes after the last marker; the entries before that
  // marker belong to elements below the formatting element.
  lemma {:induction false} RoundOrder(open: Stack, active: Entries, t: Tree, rank: map<NodeId, real>, next: NodeId, k: nat, f: nat, g: nat)
    requires InRound(open, active, t, rank, next, k, f, g)
    ensures var inner := InnerOf(open, active, f, g);
            var made := NewElement(FreshId(inner, next), active[k].tag);
            var rest, later := Removed(StackInside(open, active, f, g, inner, next), f), ListAfter(open, active, k, f, g, next);
            && LastMarker(Removed(ListInside(active, inner, next), k)) < Bookmark(inner, k)
            && !InList(made, Removed(ListInside(active, inner, next), k))
            && BeforeMarkerBelow(rest, later, if inner.Dropped? then g - 1 else g)
            && (forall p :: 0 <= p < |later| && later[p].Formatting? && later[p].element == made ==> LastMarker(later) < p)
  {
    hide *;
    InRoundFacts(open, active, t, rank, next, k, f, g);
    BookmarkPlace(open, active, t, rank, next, k, f, g);
    BlockPlace(open, active, t, rank, next, k, f, g);
    ListAfterIs(open, active, t, rank, next, k, f, g);
    var inner := InnerOf(open, active, f, g);
    StillBelow(open, active, k, f, g, next, inner, if inner.Dropped? then g - 1 else g);
  }

  // The list after a round: the same up to the last marker, and past it the new entry.
  lemma {:induction false} ListAfterIs(open: Stack, active: Entries, t: Tree, rank: map<NodeId, real>, next: NodeId, k: nat, f: nat, g: nat)
    requires InRound(open, active, t, rank, next, k, f, g)
    ensures var inner := InnerOf(open, active, f, g);
            var made := NewElement(FreshId(inner, next), active[k].tag);
            var later := ListAfter(open, active, k, f, g, next);
            && LastMarker(Removed(ListInside(active, inner, next), k)) == LastMarker(active) == LastMarker(later)
            && !InList(made, Removed(ListInside(active, inner, next), k))
            && (inner.Cloned? ==> !InList(NewElement(next, active[inner.q].tag), active))
            && |later| == |active| && (forall p :: 0 <= p <= LastMarker(active) ==> later[p] == active[p])
            && (forall p :: 0 <= p < |later| && later[p].Formatting? && later[p].element == made ==> LastMarker(active) < p)
  {
    hide Balanced;
    hide Grounded;
    hide ZoneOf;
    hide Anchor;
    hide LastMarker;
    hide InnerOf;
    hide BeforeMarkerBelow;
    BookmarkPlace(open, active, t, rank, next, k, f, g);
    var inner := InnerOf(open, active, f, g);
    var made := NewElement(FreshId(inner, next), active[k].tag);
    NewIsUnknown(open, active, t, rank, next, made);
    var inside := ListInside(active, inner, next);
    if inner.Cloned? {
      NewIsUnknown(open, active, t, rank, next, NewElement(next, active[inner.q].tag));
    }
    ListMoved(active, inside, k, Bookmark(inner, k), Formatting(FreshId(inner, next) + 1, made, active[k].tag));
  }

  lemma {:induction false} ListMoved(active: Entries, inside: Entries, k: nat, b: nat, entry: Entry)
    requires |inside| == |active| && LastMarker(inside) == LastMarker(active) < k < |active| && LastMarker(active) < b < |active|
    requires entry.Formatting? && !InList(entry.element, inside)
    requires forall p :: 0 <= p <= LastMarker(active) ==> inside[p] == active[p]
    ensures LastMarker(Removed(inside, k)) == LastMarker(active) && !InList(entry.element, Removed(inside, k))
    ensures var later := Inserted(Removed(inside, k), b, entry);
            && |later| == |active| && LastMarker(later) == LastMarker(active)
            && (forall p :: 0 <= p <= LastMarker(active) ==> later[p] == active[p])
            && (forall p :: 0 <= p < |later| && later[p].Formatting? && later[p].element == entry.element ==> LastMarker(active) < p)
  {
    hide LastMarker;
    LastMarkerWithout(inside, k);
    EntriesRemoved(inside, k);
    var rest := Removed(inside, k);
    EntriesInserted(rest, b, entry);
    var later := Inserted(rest, b, entry);
    assert forall p :: 0 <= p < |later| ==> later[p] == if p < b then rest[p] else if p == b then entry else rest[p - 1];
    LastMarkerIs(later, LastMarker(active));
  }

  lemma StillBelow(open: Stack, active: Entries, k: nat, f: nat, g: nat, next: NodeId, inner: Inner, at: nat)
    requires f < g < |open| && 0 < k < |active| && active[k].Formatting? && inner == InnerOf(open, active, f, g) && f < at
    requires BeforeMarkerBelow(open, active, f) && Distinct(Removed(StackInside(open, active, f, g, inner, next), f))
    requires f < |StackInside(open, active, f, g, inner, next)|
    requires var later := ListAfter(open, active, k, f, g, next);
             LastMarker(later) == LastMarker(active) && |later| == |active| && forall p :: 0 <= p <= LastMarker(active) ==> later[p] == active[p]
    requires inner.Cloned? ==> !InList(NewElement(next, active[inner.q].tag), active)
    ensures BeforeMarkerBelow(Removed(StackInside(open, active, f, g, inner, next), f), ListAfter(open, active, k, f, g, next), at)
  {
    hide LastMarker;
    hide ListAfter;
    hide InnerOf;
    var inside := StackInside(open, active, f, g, inner, next);
    var rest, later := Removed(inside, f), ListAfter(open, active, k, f, g, next);
    forall p, u | 0 <= u < |rest| && p < LastMarker(later) && IsOpenAt(rest, later, p, u)
      ensures u < at
    {
      assert later[p] == active[p] && rest[u] == inside[if u < f then u else u + 1];
      if inner.Cloned? && u == g - 2 {
        assert false;
      }
      var v := if u < f then u else if inner.Dropped? && u + 1 >= g - 1 then u + 2 else u + 1;
      assert rest[u] == open[v];
      assert IsOpenAt(open, active, p, v);
    }
  }

  lemma InsideBalanced(open: Stack, active: Entries, t: Tree, rank: map<NodeId, real>, next: NodeId, k: nat, f: nat, g: nat)
    requires InRound(open, active, t, rank, next, k, f, g)
    ensures var inner := InnerOf(open, active, f, g);
            var inside := StackInside(open, active, f, g, inner, next);
            && Balanced(inside, ListInside(active, inner, next))
            && NewElement(FreshId(inner, next), active[k].tag) !in inside
            && !TakesMarker(active[k].tag.name)
  {
    hide Balanced;
    hide Grounded;
    hide ZoneOf;
    hide Anchor;
    hide TakesMarker;
    hide LastMarker;
    var inner := InnerOf(open, active, f, g);
    NewIsUnknown(open, active, t, rank, next, NewElement(FreshId(inner, next), active[k].tag));
    OwnTakesNoMarker(open, active, t, rank, next, k);
    match inner {
      case Same =>
      case Dropped => BalancedRemove(open, active, g - 1);
      case Cloned(q) =>
        NewIsUnknown(open, active, t, rank, next, NewElement(next, active[q].tag));
        OwnTakesNoMarker(open, active, t, rank, next, q);
        BalancedReplace(open, active, g - 1, q, NewElement(next, active[q].tag));
    }
  }

  lemma NothingTakenAfter(open: Stack, active: Entries, t: Tree, rank: map<NodeId, real>, next: NodeId, k: nat, f: nat, g: nat)
    requires InRound(open, active, t, rank, next, k, f, g)
    ensures var inner := InnerOf(open, active, f, g);
            var rest := Removed(StackInside(open, active, f, g, inner, next), f);
            var at := if inner.Dropped? then g - 1 else g;
            at <= |rest| && Takers(rest[at..]) == 0
  {
    hide Balanced;
    hide Grounded;
    hide ZoneOf;
    hide Anchor;
    hide TakesMarker;
    var inner := InnerOf(open, active, f, g);
    var rest := Removed(StackInside(open, active, f, g, inner, next), f);
    var at := if inner.Dropped? then g - 1 else g;
    NothingMarkedAbove(open, active, k, f);
    assert rest[at..] == open[g + 1..];
    NoTakers(open[g + 1..]);
  }

  lemma RoundZone(open: Stack, active: Entries, t: Tree, rank: map<NodeId, real>, next: NodeId, k: nat, f: nat, g: nat)
    requires InRound(open, active, t, rank, next, k, f, g)
    ensures ZoneOf(StackAfter(open, active, k, f, g, next)) == ZoneOf(open)
    ensures Anchor(StackAfter(open, active, k, f, g, next)) == Anchor(open)
  {
    hide Balanced;
    hide Grounded;
    hide ZoneOf;
    hide Anchor;
    hide IsPlain;
    hide LastMarker;
    var inner := InnerOf(open, active, f, g);
    OwnTakesNoMarker(open, active, t, rank, next, k);
    if inner.Cloned? {
      OwnTakesNoMarker(open, active, t, rank, next, inner.q);
    }
    PrefixAfter(open, active, k, f, g, next, Anchor(open) + 1);
    PlainAfter(open, active, k, f, g, next);
    SameFlow(open, StackAfter(open, active, k, f, g, next));
  }

  lemma PrefixAfter(open: Stack, active: Entries, k: nat, f: nat, g: nat, next: NodeId, a: nat)
    requires a <= f < g < |open| && k < |active| && active[k].Formatting?
    ensures a <= |StackAfter(open, active, k, f, g, next)|
    ensures StackAfter(open, active, k, f, g, next)[..a] == open[..a]
  {
    hide InnerOf;
    var inner := InnerOf(open, active, f, g);
    var inside := StackInside(open, active, f, g, inner, next);
    forall i | 0 <= i < a
      ensures StackAfter(open, active, k, f, g, next)[i] == open[i]
    {
      assert inside[i] == open[i];
      assert Removed(inside, f)[i] == inside[i];
    }
  }

  lemma PlainAfter(open: Stack, active: Entries, k: nat, f: nat, g: nat, next: NodeId)
    requires Anchor(open) < f < g < |open| && k < |active| && active[k].Formatting? && IsPlain(active[k].tag.name)
    requires InnerOf(open, active, f, g).Cloned? ==> IsPlain(active[InnerOf(open, active, f, g).q].tag.name)
    ensures forall i :: Anchor(open) < i < |StackAfter(open, active, k, f, g, next)| ==> IsPlain(StackAfter(open, active, k, f, g, next)[i].name)
  {
    hide IsPlain;
    hide InnerOf;
    hide Removed;
    hide Inserted;
    var inner := InnerOf(open, active, f, g);
    PlainInside(open, active, f, g, next, inner);
    PlainRemoved(StackInside(open, active, f, g, inner, next), Anchor(open), f);
    PlainInserted(Removed(StackInside(open, active, f, g, inner, next), f), Anchor(open), if inner.Dropped? then g - 1 else g,
                  NewElement(FreshId(inner, next), active[k].tag));
  }

  lemma PlainInside(open: Stack, active: Entries, f: nat, g: nat, next: NodeId, inner: Inner)
    requires Anchor(open) < f < g < |open| && inner == InnerOf(open, active, f, g)
    requires inner.Cloned? ==> IsPlain(active[inner.q].tag.name)
    ensures |StackInside(open, active, f, g, inner, next)| == |open| - if inner.Dropped? then 1 else 0
    ensures forall i :: Anchor(open) < i < |StackInside(open, active, f, g, inner, next)| ==> IsPlain(StackInside(open, active, f, g, inner, next)[i].name)
  {
    hide IsPlain;
    hide InnerOf;
  }

  lemma PlainRemoved(open: Stack, a: int, k: nat)
    requires a < k < |open| && forall i :: 0 <= i < |open| && a < i ==> IsPlain(open[i].name)
    ensures |Removed(open, k)| == |open| - 1
    ensures forall i :: 0 <= i < |Removed(open, k)| && a < i ==> IsPlain(Removed(open, k)[i].name)
  {
    hide IsPlain;
    assert forall i :: 0 <= i < |open| - 1 ==> Removed(open, k)[i] == open[if i < k then i else i + 1];
  }

  lemma PlainInserted(open: Stack, a: int, k: nat, e: Element)
    requires a < k <= |open| && IsPlain(e.name) && forall i :: 0 <= i < |open| && a < i ==> IsPlain(open[i].name)
    ensures forall i :: 0 <= i < |Inserted(open, k, e)| && a < i ==> IsPlain(Inserted(open, k, e)[i].name)
  {
    hide IsPlain;
    var other := Inserted(open, k, e);
    assert forall i :: 0 <= i < |other| ==> other[i] == if i < k then open[i] else if i == k then e else open[i - 1];
  }

  /**
   One round of the adoption agency, past the search for its elements: the state stays sound, the stack
   in its body, cell or caption, the list of the same length and with the same tokens; the stack loses
   at most one element; the tree stays acyclic and gains only the elements made.
   */
  lemma RoundKeeps(open: Stack, active: Entries, t: Tree, rank: map<NodeId, real>, next: NodeId, k: nat, f: nat, g: nat)
    requires InRound(open, active, t, rank, next, k, f, g)
    ensures Sound(StackAfter(open, active, k, f, g, next), ListAfter(open, active, k, f, g, next),
                  TreeAfter(t, open, active, k, f, g, next), RankAfter(open, active, t, rank, next, k, f, g),
                  FreshId(InnerOf(open, active, f, g), next) + 2)
    ensures ZoneOf(StackAfter(open, active, k, f, g, next)) == ZoneOf(open)
    ensures Distinct(StackAfter(open, active, k, f, g, next))
    ensures |StackAfter(open, active, k, f, g, next)| == |open| - if InnerOf(open, active, f, g).Dropped? then 1 else 0
    ensures |ListAfter(open, active, k, f, g, next)| == |active|
    ensures multiset(Tags(ListAfter(open, active, k, f, g, next))) == multiset(Tags(active))
    ensures Acyclic(TreeAfter(t, open, active, k, f, g, next)) && Linked(TreeAfter(t, open, active, k, f, g, next))
    ensures forall x :: Reaches(t, open[0].id, x) ==> Reaches(TreeAfter(t, open, active, k, f, g, next), open[0].id, x)
    ensures forall x :: Reaches(TreeAfter(t, open, active, k, f, g, next), open[0].id, x) ==>
              Reaches(t, open[0].id, x) || next <= x <= FreshId(InnerOf(open, active, f, g), next)
  {
    hide *;
    InRoundFacts(open, active, t, rank, next, k, f, g);
    RoundSound(open, active, t, rank, next, k, f, g);
    RoundTree(open, active, t, rank, next, k, f, g);
    SoundIsDistinct(StackAfter(open, active, k, f, g, next), ListAfter(open, active, k, f, g, next), TreeAfter(t, open, active, k, f, g, next),
                    RankAfter(open, active, t, rank, next, k, f, g), FreshId(InnerOf(open, active, f, g), next) + 2);
    ListKeepsTags(open, active, k, f, g, next);
    StackKeepsLength(open, active, k, f, g, next);
  }

  lemma RoundSound(open: Stack, active: Entries, t: Tree, rank: map<NodeId, real>, next: NodeId, k: nat, f: nat, g: nat)
    requires InRound(open, active, t, rank, next, k, f, g)
    ensures Sound(StackAfter(open, active, k, f, g, next), ListAfter(open, active, k, f, g, next),
                  TreeAfter(t, open, active, k, f, g, next), RankAfter(open, active, t, rank, next, k, f, g),
                  FreshId(InnerOf(open, active, f, g), next) + 2)
    ensures ZoneOf(StackAfter(open, active, k, f, g, next)) == ZoneOf(open)
  {
    hide *;
    InRoundFacts(open, active, t, rank, next, k, f, g);
    RoundGrounded(open, active, t, rank, next, k, f, g);
    RoundBalanced(open, active, t, rank, next, k, f, g);
    RoundZone(open, active, t, rank, next, k, f, g);
    SoundIf(StackAfter(open, active, k, f, g, next), ListAfter(open, active, k, f, g, next), TreeAfter(t, open, active, k, f, g, next),
            RankAfter(open, active, t, rank, next, k, f, g), FreshId(InnerOf(open, active, f, g), next) + 2);
  }

  lemma InRoundFacts(open: Stack, active: Entries, t: Tree, rank: map<NodeId, real>, next: NodeId, k: nat, f: nat, g: nat)
    requires InRound(open, active, t, rank, next, k, f, g)
    ensures 0 < f < g < |open| && 0 < k < |active| && active[k].Formatting? && active[k].element == open[f]
  {
  }

  lemma SoundIf(open: Stack, active: Entries, t: Tree, rank: map<NodeId, real>, next: NodeId)
    requires Grounded(open, active, t, rank, next) && Balanced(open, active)
    ensures Sound(open, active, t, rank, next)
  {
  }

  lemma RoundTree(open: Stack, active: Entries, t: Tree, rank: map<NodeId, real>, next: NodeId, k: nat, f: nat, g: nat)
    requires InRound(open, active, t, rank, next, k, f, g)
    ensures Acyclic(TreeAfter(t, open, active, k, f, g, next)) && Linked(TreeAfter(t, open, active, k, f, g, next))
    ensures forall x :: Reaches(t, open[0].id, x) ==> Reaches(TreeAfter(t, open, active, k, f, g, next), open[0].id, x)
    ensures forall x :: Reaches(TreeAfter(t, open, active, k, f, g, next), open[0].id, x) ==>
              Reaches(t, open[0].id, x) || next <= x <= FreshId(InnerOf(open, active, f, g), next)
  {
    hide Reaches;
    hide Edge;
    hide Linked;
    hide Ranked;
    hide Balanced;
    hide ZoneOf;
    hide Anchor;
    hide LastMarker;
    hide Adopted;
    hide CanSplice;
    var inner := InnerOf(open, active, f, g);
    CanRehangHere(open, active, t, rank, next, k, f, g);
    AdoptionKeepsTree(t, rank, open[0].id, open[f - 1].id, open[g].id, CloneOf(active, inner, next), rank[open[g - 1].id],
                      NewElement(FreshId(inner, next), active[k].tag), Slot(open, active, t, rank, next, k, f, g));
  }

  /**
   A round keeps every node listed once, by its own parent, exactly if the furthest block has no children:
   the block goes on listing the children that the new element takes over.
   */
  lemma RoundConsistentIff(open: Stack, active: Entries, t: Tree, rank: map<NodeId, real>, next: NodeId, k: nat, f: nat, g: nat)
    requires InRound(open, active, t, rank, next, k, f, g) && Consistent(t)
    ensures open[g].id in t
    ensures Consistent(TreeAfter(t, open, active, k, f, g, next)) <==> t[open[g].id].children == []
  {
    hide Sound;
    hide ZoneOf;
    hide Anchor;
    hide LastMarker;
    hide Adopted;
    hide CanRehang;
    hide CanSplice;
    hide Consistent;
    hide Slot;
    var inner := InnerOf(open, active, f, g);
    CanRehangHere(open, active, t, rank, next, k, f, g);
    CanSpliceHere(open, active, t, rank, next, k, f, g);
    ConsistentIffChildless(t, rank, open[f - 1].id, open[g].id, CloneOf(active, inner, next), rank[open[g - 1].id],
                           NewElement(FreshId(inner, next), active[k].tag), Slot(open, active, t, rank, next, k, f, g));
  }

  // ---------------------------------------------------------------------------------------------
  // Facts about the places of elements and entries during a round

  // Once the element above the block is dropped or cloned, neither sequence knows it any more.
  lemma AboveIsGone(open: Stack, active: Entries, t: Tree, rank: map<NodeId, real>, next: NodeId, f: nat, g: nat)
    requires Grounded(open, active, t, rank, next) && f < g < |open| && !InnerOf(open, active, f, g).Same?
    ensures var inner := InnerOf(open, active, f, g);
            && !InList(open[g - 1], ListInside(active, inner, next))
            && open[g - 1] !in StackInside(open, active, f, g, inner, next)
  {
    GroundedIsDistinct(open, active, t, rank, next);
    hide Lineage;
  }

  lemma BlockPlace(open: Stack, active: Entries, t: Tree, rank: map<NodeId, real>, next: NodeId, k: nat, f: nat, g: nat)
    requires InRound(open, active, t, rank, next, k, f, g)
    ensures var inner := InnerOf(open, active, f, g);
            var inside := StackInside(open, active, f, g, inner, next);
            && IndexOf(inside, open[f]) == f
            && IndexOf(Removed(inside, f), open[g]) + 1 == (if inner.Dropped? then g - 1 else g)
            && Distinct(Removed(inside, f))
            && NewElement(FreshId(inner, next), active[k].tag) != open[g]
  {
    hide *;
    StackInsideIs(open, active, t, rank, next, k, f, g);
    var inner := InnerOf(open, active, f, g);
    var inside := StackInside(open, active, f, g, inner, next);
    var h := if inner.Dropped? then g - 1 else g;
    RemovedPlaces(inside, f);
    PlaceIs(inside, f);
    PlaceIs(Removed(inside, f), h - 1);
  }

  lemma StackInsideIs(open: Stack, active: Entries, t: Tree, rank: map<NodeId, real>, next: NodeId, k: nat, f: nat, g: nat)
    requires InRound(open, active, t, rank, next, k, f, g)
    ensures f < g < |open| && k < |active| && active[k].Formatting?
    ensures var inner := InnerOf(open, active, f, g);
            var inside := StackInside(open, active, f, g, inner, next);
            var h := if inner.Dropped? then g - 1 else g;
            && Distinct(inside) && f < h < |inside| && inside[f] == open[f] && inside[h] == open[g]
            && NewElement(FreshId(inner, next), active[k].tag) != open[g]
  {
    hide Grounded;
    hide Balanced;
    hide ZoneOf;
    hide Anchor;
    hide LastMarker;
    hide InnerOf;
    hide InList;
    hide IndexOf;
    var inner := InnerOf(open, active, f, g);
    SoundIsDistinct(open, active, t, rank, next);
    NewIsUnknown(open, active, t, rank, next, NewElement(FreshId(inner, next), active[k].tag));
    if inner.Cloned? {
      NewIsUnknown(open, active, t, rank, next, NewElement(next, active[inner.q].tag));
    }
  }

  lemma RemovedPlaces(s: Stack, f: nat)
    requires Distinct(s) && f < |s|
    ensures Distinct(Removed(s, f)) && |Removed(s, f)| == |s| - 1
    ensures forall i :: f < i < |s| ==> Removed(s, f)[i - 1] == s[i]
  {
    assert forall i :: 0 <= i < |s| - 1 ==> Removed(s, f)[i] == s[if i < f then i else i + 1];
  }

  lemma PlaceIs(s: Stack, i: nat)
    requires Distinct(s) && i < |s|
    ensures IndexOf(s, s[i]) == i
  {
  }

  lemma EntryPlace(open: Stack, active: Entries, t: Tree, rank: map<NodeId, real>, next: NodeId, k: nat, f: nat, g: nat)
    requires InRound(open, active, t, rank, next, k, f, g)
    ensures var inner := InnerOf(open, active, f, g);
            var list := ListInside(active, inner, next);
            var bookmark := active[if inner.Cloned? then inner.q else k - 1].id;
            && EntryOf(list, open[f]) == k
            && PlaceOf(Removed(list, k), bookmark) + 1 == Bookmark(inner, k)
            && (forall p, q :: 0 <= p < q < |Removed(list, k)| ==> Removed(list, k)[p].id != Removed(list, k)[q].id)
            && bookmark < next
  {
    hide Sound;
    hide ZoneOf;
    hide Anchor;
    hide LastMarker;
    hide ListBelow;
    hide ListInside;
    hide Bookmark;
    hide Removed;
    ListIsBelow(open, active, t, rank, next);
    SoundIsDistinct(open, active, t, rank, next);
    var inner := InnerOf(open, active, f, g);
    ListPlaces(active, next, k, inner);
  }

  lemma SoundIsDistinct(open: Stack, active: Entries, t: Tree, rank: map<NodeId, real>, next: NodeId)
    requires Sound(open, active, t, rank, next)
    ensures Distinct(open)
  {
    GroundedIsDistinct(open, active, t, rank, next);
  }

  lemma ListPlaces(active: Entries, next: NodeId, k: nat, inner: Inner)
    requires ListBelow(active, next) && 0 < k < |active| && active[k].Formatting?
    requires inner.Cloned? ==> inner.q < |active| && inner.q != k && active[inner.q].Formatting?
    ensures EntryOf(ListInside(active, inner, next), active[k].element) == k
    ensures PlaceOf(Removed(ListInside(active, inner, next), k), active[if inner.Cloned? then inner.q else k - 1].id) + 1 == Bookmark(inner, k)
    ensures forall p, q :: 0 <= p < q < |Removed(ListInside(active, inner, next), k)| ==>
              Removed(ListInside(active, inner, next), k)[p].id != Removed(ListInside(active, inner, next), k)[q].id
    ensures active[if inner.Cloned? then inner.q else k - 1].id < next
  {
    var list := ListInside(active, inner, next);
    assert list[k] == active[k];
    SameIds(active, list, k);
    var rest := Removed(list, k);
    assert rest[Bookmark(inner, k) - 1].id == active[if inner.Cloned? then inner.q else k - 1].id;
  }

  lemma SameIds(active: Entries, list: Entries, k: nat)
    requires k < |active| == |list| && forall p :: 0 <= p < |list| ==> list[p].id == active[p].id
    requires forall p, q :: 0 <= p < q < |active| ==> active[p].id != active[q].id
    ensures forall p, q :: 0 <= p < q < |Removed(list, k)| ==> Removed(list, k)[p].id != Removed(list, k)[q].id
  {
    var rest := Removed(list, k);
    assert forall p :: 0 <= p < |rest| ==> rest[p] == list[if p < k then p else p + 1];
  }

  // ---------------------------------------------------------------------------------------------
  // What any number of rounds keeps

  ghost predicate InFlow(s: Snapshot, rank: map<NodeId, real>)
    ensures InFlow(s, rank) ==> s.open != []
  {
    s.open != [] && Sound(s.open, s.active, s.tree, rank, s.next) && IsFlow(ZoneOf(s.open))
  }

  // Nothing below the root is lost and nothing but new elements is added; the list loses at most an entry.
  ghost predicate KeptBy(s: Snapshot, r: Snapshot)
    requires s.open != []
  {
    && r.open != [] && r.open[0] == s.open[0] && s.next <= r.next
    && Acyclic(r.tree) && Linked(r.tree)
    && (forall x :: Reaches(s.tree, s.open[0].id, x) ==> Reaches(r.tree, s.open[0].id, x))
    && (forall x :: Reaches(r.tree, s.open[0].id, x) ==> Reaches(s.tree, s.open[0].id, x) || s.next <= x < r.next)
    && |s.active| - 1 <= |r.active| <= |s.active| && multiset(Tags(r.active)) <= multiset(Tags(s.active))
  }

  /** The adoption agency, however many rounds it takes. */
  lemma {:induction false} RoundsKeep(n: nat, s: Snapshot, rank: map<NodeId, real>, name: Name)
    requires InFlow(s, rank) && IsFormatting(name)
    ensures s.open != [] && KeptBy(s, Rounds(n, s, name))
  {
    hide *;
    RoundsUnfold(n, s, name);
    if n == 0 {
      Unchanged(s, rank);
    } else if GoesOn(s, name) {
      var r := RoundOn(s, name);
      var later := RoundGoesOn(s, rank, name);
      RoundsKeep(n - 1, r, later, name);
      KeptTwice(s, r, Rounds(n - 1, r, name));
    } else {
      LastRoundKeeps(s, rank, name);
    }
  }

  lemma Unchanged(s: Snapshot, rank: map<NodeId, real>)
    requires InFlow(s, rank)
    ensures KeptBy(s, s)
  {
    hide Reaches;
    hide Acyclic;
    hide Tags;
    RankedIsAcyclic(s.tree, rank);
  }

  lemma LastRoundIs(s: Snapshot, name: Name)
    requires !GoesOn(s, name)
    ensures var plan := PlanOf(s.open, s.active, name);
            RoundOn(s, name) ==
            if plan.Forget? then s.(active := Removed(s.active, plan.k))
            else if plan.CloseAll? then s.(open := s.open[..plan.f], active := Removed(s.active, plan.k))
            else if plan.NoEntry? && OtherMatch(s.open, name) >= 0 then s.(open := s.open[..OtherMatch(s.open, name)])
            else s
  {
    hide PlanOf;
    hide OtherMatch;
    hide Removed;
  }

  lemma LastRoundKeeps(s: Snapshot, rank: map<NodeId, real>, name: Name)
    requires InFlow(s, rank) && IsFormatting(name) && !GoesOn(s, name)
    ensures KeptBy(s, RoundOn(s, name))
  {
    hide *;
    LastRoundIs(s, name);
    RootStays(s, rank, name);
    Unchanged(s, rank);
    var plan := PlanOf(s.open, s.active, name);
    if plan.Forget? {
      EntryLost(s.active, plan.k);
      KeptShorter(s, rank, |s.open|, Removed(s.active, plan.k));
      assert s.open[..|s.open|] == s.open;
    } else if plan.CloseAll? {
      EntryLost(s.active, plan.k);
      KeptShorter(s, rank, plan.f, Removed(s.active, plan.k));
    } else if plan.NoEntry? && OtherMatch(s.open, name) >= 0 {
      KeptShorter(s, rank, OtherMatch(s.open, name), s.active);
    }
  }

  lemma KeptShorter(s: Snapshot, rank: map<NodeId, real>, m: nat, active: Entries)
    requires InFlow(s, rank) && 0 < m <= |s.open|
    requires |s.active| - 1 <= |active| <= |s.active| && multiset(Tags(active)) <= multiset(Tags(s.active))
    ensures KeptBy(s, s.(open := s.open[..m], active := active))
  {
    hide InFlow;
    hide Reaches;
    hide Acyclic;
    hide Tags;
    Unchanged(s, rank);
  }

  lemma EntryLost(active: Entries, k: nat)
    requires k < |active| && active[k].Formatting?
    ensures |Removed(active, k)| == |active| - 1 && multiset(Tags(Removed(active, k))) <= multiset(Tags(active))
  {
    hide Tags;
    TagsRemoved(active, k);
    FewerTags(Tags(active), k);
  }

  lemma FewerTags(tags: seq<Option<Tag>>, k: nat)
    requires k < |tags|
    ensures multiset(Removed(tags, k)) <= multiset(tags)
  {
    assert tags == tags[..k] + [tags[k]] + tags[k + 1..];
  }

  // The formatting element and what an end tag closes are above the root.
  lemma RootStays(s: Snapshot, rank: map<NodeId, real>, name: Name)
    requires InFlow(s, rank) && IsFormatting(name)
    ensures var plan := PlanOf(s.open, s.active, name);
            && (plan.CloseAll? || plan.Rehang? ==> 0 < plan.f)
            && (plan.NoEntry? ==> OtherMatch(s.open, name) != 0)
  {
    PlanStaysInside(s.open, s.active, name);
    AnchorOfFlow(s.open);
    hide Grounded;
    hide Balanced;
    hide ZoneOf;
    hide Anchor;
  }

  lemma RoundGoesOn(s: Snapshot, rank: map<NodeId, real>, name: Name) returns (later: map<NodeId, real>)
    requires InFlow(s, rank) && IsFormatting(name) && GoesOn(s, name)
    ensures InFlow(RoundOn(s, name), later) && KeptBy(s, RoundOn(s, name))
    ensures |RoundOn(s, name).active| == |s.active| && multiset(Tags(RoundOn(s, name).active)) == multiset(Tags(s.active))
  {
    hide Sound;
    hide Reaches;
    hide Acyclic;
    hide Linked;
    hide Tags;
    hide Anchor;
    hide ZoneOf;
    hide InnerOf;
    hide ListAfter;
    hide TreeAfter;
    var plan := PlanOf(s.open, s.active, name);
    var k, f, g := plan.k, plan.f, plan.g;
    RootStays(s, rank, name);
    PlanInRound(s, rank, name);
    RoundKeeps(s.open, s.active, s.tree, rank, s.next, k, f, g);
    RootKept(s.open, s.active, k, f, g, s.next);
    later := RankAfter(s.open, s.active, s.tree, rank, s.next, k, f, g);
  }

  lemma PlanInRound(s: Snapshot, rank: map<NodeId, real>, name: Name)
    requires InFlow(s, rank) && IsFormatting(name) && GoesOn(s, name)
    ensures var plan := PlanOf(s.open, s.active, name); InRound(s.open, s.active, s.tree, rank, s.next, plan.k, plan.f, plan.g)
  {
    RootStays(s, rank, name);
    PlanStaysInside(s.open, s.active, name);
    hide Grounded;
    hide Balanced;
    hide ZoneOf;
    hide Anchor;
  }

  lemma RootKept(open: Stack, active: Entries, k: nat, f: nat, g: nat, next: NodeId)
    requires 0 < f < g < |open| && k < |active| && active[k].Formatting?
    ensures StackAfter(open, active, k, f, g, next) != [] && StackAfter(open, active, k, f, g, next)[0] == open[0]
  {
    hide EntryOf;
  }

  lemma KeptTwice(s: Snapshot, r: Snapshot, q: Snapshot)
    requires s.open != [] && r.open != [] && KeptBy(s, r) && KeptBy(r, q)
    requires |s.active| == |r.active| && multiset(Tags(r.active)) == multiset(Tags(s.active))
    ensures KeptBy(s, q)
  {
    hide Reaches;
    hide Acyclic;
    hide Linked;
    hide Tags;
  }
}
