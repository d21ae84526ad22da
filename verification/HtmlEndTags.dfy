/**
 What the end tags of a body come to, said of the stack, the list and the tree alone: which elements and
 entries go, and which stay.
 */
module HtmlEndTags {
  import opened Wrappers
  import opened HtmlNames
  import opened HtmlStack
  import opened HtmlFormatting
  import opened HtmlTree
  import opened HtmlState
  import opened HtmlAdoption
  import opened HtmlBody

  // ---------------------------------------------------------------------------------------------
  // The entry and the element an end tag of a formatting element is about

  predicate IsLastEntry(active: Entries, p: nat, name: Name) {
    && p < |active| && active[p].Formatting? && active[p].element.name == name
    && forall i :: p < i < |active| ==> active[i].Formatting? && active[i].element.name != name
  }

  lemma LastEntryIs(active: Entries, p: nat, name: Name)
    requires IsLastEntry(active, p, name)
    ensures LastNamed(active, name) == p && LastMarker(active) < p
  {
    hide LastNamed;
    hide LastMarker;
  }

  lemma NoEntryIs(active: Entries, name: Name)
    requires forall p :: !IsLastEntry(active, p, name)
    ensures LastNamed(active, name) < 0
  {
    hide LastNamed;
    hide LastMarker;
    var k := LastNamed(active, name);
    assert k >= 0 ==> IsLastEntry(active, k, name);
  }

  lemma PlaceIs(open: Stack, f: nat)
    requires Distinct(open) && f < |open|
    ensures IndexOf(open, open[f]) == f
  {
    hide IndexOf;
    var k := IndexOf(open, open[f]);
    forall i | 0 <= i < k
      ensures open[i] in open[..k]
    {
      assert open[..k][i] == open[i];
    }
  }

  lemma TopmostIs(open: Stack, names: set<Name>, k: nat)
    requires k < |open| && open[k].name in names && forall i :: k < i < |open| ==> open[i].name !in names
    ensures Topmost(open, names) == k
  {
    hide Topmost;
  }

  // Everything that ends a scope is special.
  lemma ScopeEndsAreSpecial(n: Name)
    requires EndsScope(Ordinary, n)
    ensures IsSpecial(n) && !IsFormatting(n)
  {
  }

  lemma InOrdinaryScope(open: Stack, f: nat, name: Name)
    requires f < |open| && open[f].name == name && forall i :: f < i < |open| ==> !EndsScope(Ordinary, open[i].name)
    ensures InScope(open, {name}, Ordinary)
  {
    hide Topmost;
    hide EndsScope;
    assert open[f].name in {name};
  }

  lemma OutOfOrdinaryScope(open: Stack, j: nat, name: Name)
    requires j < |open| && EndsScope(Ordinary, open[j].name) && forall i :: j <= i < |open| ==> open[i].name != name
    ensures !InScope(open, {name}, Ordinary)
  {
    hide Topmost;
    hide EndsScope;
  }

  // ---------------------------------------------------------------------------------------------
  // One round

  lemma PlanNoEntry(s: Snapshot, name: Name)
    requires forall p :: !IsLastEntry(s.active, p, name)
    ensures PlanOf(s.open, s.active, name) == NoEntry
  {
    NoEntryIs(s.active, name);
    hide LastNamed;
  }

  lemma PlanForgets(s: Snapshot, name: Name, p: nat)
    requires IsLastEntry(s.active, p, name) && s.active[p].element !in s.open
    ensures PlanOf(s.open, s.active, name) == Forget(p)
  {
    LastEntryIs(s.active, p, name);
    hide LastNamed;
    hide IndexOf;
  }

  lemma PlanIgnores(s: Snapshot, name: Name, p: nat, j: nat)
    requires IsLastEntry(s.active, p, name) && s.active[p].element in s.open
    requires j < |s.open| && EndsScope(Ordinary, s.open[j].name) && forall i :: j <= i < |s.open| ==> s.open[i].name != name
    ensures PlanOf(s.open, s.active, name) == OutOfScope
  {
    LastEntryIs(s.active, p, name);
    OutOfOrdinaryScope(s.open, j, name);
    hide LastNamed;
    hide IndexOf;
    hide InScope;
  }

  lemma PlanCloses(s: Snapshot, name: Name, p: nat, f: nat)
    requires IsLastEntry(s.active, p, name) && Distinct(s.open) && f < |s.open| && s.open[f] == s.active[p].element
    requires forall i :: f < i < |s.open| ==> !IsSpecial(s.open[i].name)
    ensures PlanOf(s.open, s.active, name) == CloseAll(p, f)
  {
    hide IsSpecial;
    hide EndsScope;
    hide PlanOf;
    NothingSpecialIsInScope(s.open, f, name);
    PlanIs(s, name, p, f, -1);
  }

  lemma NothingSpecialIsInScope(open: Stack, f: nat, name: Name)
    requires f < |open| && open[f].name == name && forall i :: f < i < |open| ==> !IsSpecial(open[i].name)
    ensures forall i :: f < i < |open| ==> !EndsScope(Ordinary, open[i].name)
  {
    forall i | f < i < |open|
      ensures !EndsScope(Ordinary, open[i].name)
    {
      if EndsScope(Ordinary, open[i].name) {
        ScopeEndsAreSpecial(open[i].name);
      }
    }
  }

  // With the element open and in scope the plan is to close or to rehang.
  lemma PlanIs(s: Snapshot, name: Name, p: nat, f: nat, g: int)
    requires IsLastEntry(s.active, p, name) && Distinct(s.open) && f < |s.open| && s.open[f] == s.active[p].element
    requires forall i :: f < i < |s.open| ==> !EndsScope(Ordinary, s.open[i].name)
    requires g == -1 || (f < g < |s.open| && IsSpecial(s.open[g].name))
    requires forall i :: f < i < (if g >= 0 then g else |s.open|) ==> !IsSpecial(s.open[i].name)
    ensures PlanOf(s.open, s.active, name) == if g < 0 then CloseAll(p, f) else Rehang(p, f, g)
  {
    LastEntryIs(s.active, p, name);
    PlaceIs(s.open, f);
    InOrdinaryScope(s.open, f, name);
    FurthestBlockIs(s.open, f, g);
    hide IsSpecial;
    hide EndsScope;
    hide LastNamed;
    hide IndexOf;
    hide InScope;
    hide FurthestBlock;
  }

  // The round and the one after it.
  lemma OneRound(n: nat, s: Snapshot, name: Name)
    requires n > 0
    ensures !PlanOf(s.open, s.active, name).Rehang? ==>
              Rounds(n, s, name) == RoundOn(s, name) && RoundsOutcome(n, s, name) == RoundOutcome(s, name)
    ensures PlanOf(s.open, s.active, name).Rehang? && PlanOf(s.open, s.active, name).k > 0 ==>
              Rounds(n, s, name) == Rounds(n - 1, RoundOn(s, name), name) && RoundsOutcome(n, s, name) == RoundsOutcome(n - 1, RoundOn(s, name), name)
  {
    RoundsUnfold(n, s, name);
    hide PlanOf;
    hide RoundOn;
    hide RoundOutcome;
    hide Rounds;
    hide RoundsOutcome;
  }

  lemma RoundIs(s: Snapshot, name: Name)
    ensures var plan := PlanOf(s.open, s.active, name);
            && (plan.Forget? ==> RoundOn(s, name) == s.(active := Removed(s.active, plan.k)))
            && (plan.CloseAll? ==> RoundOn(s, name) == s.(open := s.open[..plan.f], active := Removed(s.active, plan.k)))
            && (plan.OutOfScope? ==> RoundOn(s, name) == s)
            && (plan.NoEntry? ==> RoundOn(s, name) == if OtherMatch(s.open, name) < 0 then s else s.(open := s.open[..OtherMatch(s.open, name)]))
    ensures var plan := PlanOf(s.open, s.active, name);
            && (plan.Forget? || plan.CloseAll? ==> RoundOutcome(s, name) == Done(false))
            && (plan.OutOfScope? ==> RoundOutcome(s, name) == Done(true))
            && (plan.NoEntry? ==> RoundOutcome(s, name) == Done(OtherMatch(s.open, name) < 0))
  {
    hide *;
    RoundOutcomeIs(s, name);
    if !PlanOf(s.open, s.active, name).Rehang? {
      LastRoundIs(s, name);
    }
  }

  lemma RoundOutcomeIs(s: Snapshot, name: Name)
    ensures var plan := PlanOf(s.open, s.active, name);
            && (plan.Forget? || plan.CloseAll? ==> RoundOutcome(s, name) == Done(false))
            && (plan.OutOfScope? ==> RoundOutcome(s, name) == Done(true))
            && (plan.NoEntry? ==> RoundOutcome(s, name) == Done(OtherMatch(s.open, name) < 0))
            && (!plan.Rehang? ==> !GoesOn(s, name))
  {
    hide PlanOf;
    hide OtherMatch;
  }

  lemma RemovedIs<T>(s: seq<T>, k: nat)
    requires k < |s|
    ensures Removed(s, k) == s[..k] + s[k + 1..]
  {
  }

  // ---------------------------------------------------------------------------------------------
  // The adoption agency

  /** With nothing special above it, the formatting element is closed with all above it, and its entry goes. */
  lemma AgencyCloses(n: nat, s: Snapshot, name: Name, p: nat, f: nat)
    requires n > 0 && IsLastEntry(s.active, p, name) && Distinct(s.open) && f < |s.open| && s.open[f] == s.active[p].element
    requires forall i :: f < i < |s.open| ==> !IsSpecial(s.open[i].name)
    ensures Rounds(n, s, name) == s.(open := s.open[..f], active := s.active[..p] + s.active[p + 1..])
    ensures RoundsOutcome(n, s, name) == Done(false)
  {
    hide *;
    PlanCloses(s, name, p, f);
    OneRound(n, s, name);
    RoundIs(s, name);
    LastEntryBounds(s.active, p, name);
    RemovedIs(s.active, p);
  }

  lemma LastEntryBounds(active: Entries, p: nat, name: Name)
    requires IsLastEntry(active, p, name)
    ensures p < |active| && active[p].Formatting? && active[p].element.name == name
  {
  }

  /** If the element is not open, only the entry goes. */
  lemma AgencyForgets(n: nat, s: Snapshot, name: Name, p: nat)
    requires n > 0 && IsLastEntry(s.active, p, name) && s.active[p].element !in s.open
    ensures Rounds(n, s, name) == s.(active := s.active[..p] + s.active[p + 1..])
    ensures RoundsOutcome(n, s, name) == Done(false)
  {
    hide *;
    PlanForgets(s, name, p);
    OneRound(n, s, name);
    RoundIs(s, name);
    LastEntryBounds(s.active, p, name);
    RemovedIs(s.active, p);
  }

  /** If something that ends the scope is above all elements of the name, the tag is ignored. */
  lemma AgencyIgnores(n: nat, s: Snapshot, name: Name, p: nat, j: nat)
    requires n > 0 && IsLastEntry(s.active, p, name) && s.active[p].element in s.open
    requires j < |s.open| && EndsScope(Ordinary, s.open[j].name) && forall i :: j <= i < |s.open| ==> s.open[i].name != name
    ensures Rounds(n, s, name) == s && RoundsOutcome(n, s, name) == Done(true)
  {
    hide *;
    PlanIgnores(s, name, p, j);
    OneRound(n, s, name);
    RoundIs(s, name);
  }

  /** Without an entry the tag is like any other: it closes the topmost element of the name unless something special is above that. */
  lemma AgencyWithoutEntry(n: nat, s: Snapshot, name: Name)
    requires n > 0 && forall p :: !IsLastEntry(s.active, p, name)
    ensures forall k :: ClosesUnspecial(s.open, k, name) ==> Rounds(n, s, name) == s.(open := s.open[..k]) && RoundsOutcome(n, s, name) == Done(false)
    ensures (forall k :: !ClosesUnspecial(s.open, k, name)) ==> Rounds(n, s, name) == s && RoundsOutcome(n, s, name) == Done(true)
  {
    hide *;
    PlanNoEntry(s, name);
    OneRound(n, s, name);
    RoundIs(s, name);
    OtherMatchIs(s.open, name);
  }

  // The topmost element of the name, with nothing special above it.
  predicate ClosesUnspecial(open: Stack, k: int, name: Name) {
    && 0 <= k < |open| && open[k].name == name
    && forall j :: k < j < |open| ==> open[j].name != name && !IsSpecial(open[j].name)
  }

  lemma OtherMatchIs(open: Stack, name: Name)
    ensures OtherMatch(open, name) < |open|
    ensures OtherMatch(open, name) >= 0 <==> exists k :: ClosesUnspecial(open, k, name)
    ensures forall k :: ClosesUnspecial(open, k, name) ==> OtherMatch(open, name) == k
  {
    hide IsSpecial;
    hide OtherMatch;
    hide Topmost;
    var m := OtherMatch(open, name);
    if m >= 0 {
      assert ClosesUnspecial(open, m, name);
    }
    forall k | ClosesUnspecial(open, k, name)
      ensures m == k
    {
      assert open[k].name == name;
    }
  }

  // ---------------------------------------------------------------------------------------------
  // A round that rehangs a block

  // The setting: the entry, its element, the lowest special element above that, all in scope.
  ghost predicate Rehangs(s: Snapshot, name: Name, p: nat, f: nat, g: nat) {
    && IsLastEntry(s.active, p, name) && Distinct(s.open) && f < g < |s.open| && s.open[f] == s.active[p].element
    && IsSpecial(s.open[g].name) && (forall i :: f < i < g ==> !IsSpecial(s.open[i].name))
    && forall i :: f < i < |s.open| ==> !EndsScope(Ordinary, s.open[i].name)
  }

  lemma PlanRehangs(s: Snapshot, name: Name, p: nat, f: nat, g: nat)
    requires Rehangs(s, name, p, f, g)
    ensures PlanOf(s.open, s.active, name) == Rehang(p, f, g) && p < |s.active| && s.active[p].Formatting? && f < g < |s.open|
  {
    hide IsSpecial;
    hide EndsScope;
    hide PlanOf;
    PlanIs(s, name, p, f, g);
  }

  // The element between the formatting element and the block has no entry, if there is one at all.
  predicate NothingToClone(s: Snapshot, f: nat, g: nat)
    requires f < g < |s.open|
  {
    g == f + 1 || !InList(s.open[g - 1], s.active)
  }

  // The first entry of the element right below the block.
  predicate IsToClone(s: Snapshot, f: nat, g: nat, q: nat)
    requires f < g < |s.open|
  {
    && f + 1 < g && q < |s.active| && s.active[q].Formatting? && s.active[q].element == s.open[g - 1]
    && forall i :: 0 <= i < q ==> !(s.active[i].Formatting? && s.active[i].element == s.open[g - 1])
  }

  lemma InnerIs(s: Snapshot, f: nat, g: nat)
    requires f < g < |s.open|
    ensures NothingToClone(s, f, g) ==> InnerOf(s.open, s.active, f, g) == if g == f + 1 then Same else Dropped
    ensures forall q :: IsToClone(s, f, g, q) ==> InnerOf(s.open, s.active, f, g) == Cloned(q)
  {
    hide EntryOf;
    var q0 := EntryOf(s.active, s.open[g - 1]);
    forall q | IsToClone(s, f, g, q)
      ensures q0 == q
    {
      assert InList(s.open[g - 1], s.active);
    }
  }

  lemma MoveInPlace<T>(x: seq<T>, p: nat, e: T)
    requires p < |x|
    ensures Inserted(Removed(x, p), p, e) == x[..p] + [e] + x[p + 1..]
  {
    assert Removed(x, p)[..p] == x[..p];
    assert Removed(x, p)[p..] == x[p + 1..];
  }

  lemma MoveDown<T>(x: seq<T>, p: nat, q: nat, c: T, e: T)
    requires q < p < |x|
    ensures Inserted(Removed(x[q := c], p), q + 1, e) == x[..q] + [c, e] + x[q + 1..p] + x[p + 1..]
  {
    var y := Removed(x[q := c], p);
    assert y == x[..q] + [c] + x[q + 1..p] + x[p + 1..];
    assert y[..q + 1] == x[..q] + [c];
    assert y[q + 1..] == x[q + 1..p] + x[p + 1..];
  }

  lemma MoveUp<T>(x: seq<T>, p: nat, q: nat, c: T, e: T)
    requires p < q < |x|
    ensures Inserted(Removed(x[q := c], p), q, e) == x[..p] + x[p + 1..q] + [c, e] + x[q + 1..]
  {
    var y := Removed(x[q := c], p);
    assert y == x[..p] + x[p + 1..q] + [c] + x[q + 1..];
    assert y[..q] == x[..p] + x[p + 1..q] + [c];
    assert y[q..] == x[q + 1..];
  }

  // The stack of a round: what is below the block moves up, and the new element comes right above the block.
  lemma MovePast<T>(x: seq<T>, f: nat, g: nat, e: T)
    requires f < g < |x|
    ensures Inserted(Removed(x, f), g, e) == x[..f] + x[f + 1..g] + [x[g], e] + x[g + 1..]
  {
    var y := Removed(x, f);
    assert y == x[..f] + x[f + 1..g] + [x[g]] + x[g + 1..];
    assert y[..g] == x[..f] + x[f + 1..g] + [x[g]];
    assert y[g..] == x[g + 1..];
  }

  lemma DropThenMove<T>(x: seq<T>, f: nat, g: nat, e: T)
    requires f + 1 < g < |x|
    ensures Inserted(Removed(Removed(x, g - 1), f), g - 1, e) == x[..f] + x[f + 1..g - 1] + [x[g], e] + x[g + 1..]
  {
    var y := Removed(x, g - 1);
    assert y == x[..g - 1] + x[g..];
    MovePast(y, f, g - 1, e);
    assert y[..f] == x[..f] && y[f + 1..g - 1] == x[f + 1..g - 1] && y[g - 1] == x[g] && y[g..] == x[g + 1..];
  }

  lemma CloneThenMove<T>(x: seq<T>, f: nat, g: nat, c: T, e: T)
    requires f + 1 < g < |x|
    ensures Inserted(Removed(x[g - 1 := c], f), g, e) == x[..f] + x[f + 1..g - 1] + [c, x[g], e] + x[g + 1..]
  {
    var y := x[g - 1 := c];
    MovePast(y, f, g, e);
    assert y[..f] == x[..f] && y[f + 1..g] == x[f + 1..g - 1] + [c] && y[g] == x[g] && y[g + 1..] == x[g + 1..];
  }

  /**
   Without an element to clone, the formatting element goes, with the one right below the block if there is
   one; a new element for the entry's token takes the place right above the block, and its entry that of the
   old one.
   */
  lemma RoundWithoutClone(s: Snapshot, name: Name, p: nat, f: nat, g: nat)
    requires Rehangs(s, name, p, f, g) && 0 < p && 0 < f && NothingToClone(s, f, g)
    ensures var tag := s.active[p].tag;
            var e := Element(s.next, tag.name, tag.attributes);
            var r := RoundOn(s, name);
            && r.open == s.open[..f] + s.open[f + 1..if g == f + 1 then g else g - 1] + [s.open[g], e] + s.open[g + 1..]
            && r.active == s.active[..p] + [Formatting(s.next + 1, e, tag)] + s.active[p + 1..]
            && r.next == s.next + 2
            && r.tree == Adopted(s.tree, s.open[f - 1].id, s.open[g].id, None, e)
  {
    hide *;
    PlanRehangs(s, name, p, f, g);
    InnerIs(s, f, g);
    RoundGoes(s, name);
    var tag := s.active[p].tag;
    var e := Element(s.next, tag.name, tag.attributes);
    UnclonedRound(s, p, f, g);
    MoveInPlace(s.active, p, Formatting(s.next + 1, e, tag));
    if g == f + 1 {
      MovePast(s.open, f, g, e);
    } else {
      DropThenMove(s.open, f, g, e);
    }
  }

  lemma RoundGoes(s: Snapshot, name: Name)
    ensures var plan := PlanOf(s.open, s.active, name);
            plan.Rehang? && plan.k > 0 && plan.f > 0 ==>
              RoundOn(s, name) == Snapshot(StackAfter(s.open, s.active, plan.k, plan.f, plan.g, s.next), ListAfter(s.open, s.active, plan.k, plan.f, plan.g, s.next),
                                           TreeAfter(s.tree, s.open, s.active, plan.k, plan.f, plan.g, s.next), FreshId(InnerOf(s.open, s.active, plan.f, plan.g), s.next) + 2)
  {
    hide PlanOf;
    hide StackAfter;
    hide ListAfter;
    hide TreeAfter;
    hide InnerOf;
    hide FreshId;
  }

  lemma UnclonedRound(s: Snapshot, k: nat, f: nat, g: nat)
    requires 0 < f < g < |s.open| && 0 < k < |s.active| && s.active[k].Formatting?
    requires InnerOf(s.open, s.active, f, g) == if g == f + 1 then Same else Dropped
    ensures var tag := s.active[k].tag;
            var e := Element(s.next, tag.name, tag.attributes);
            && StackAfter(s.open, s.active, k, f, g, s.next)
               == (if g == f + 1 then Inserted(Removed(s.open, f), g, e) else Inserted(Removed(Removed(s.open, g - 1), f), g - 1, e))
            && ListAfter(s.open, s.active, k, f, g, s.next) == Inserted(Removed(s.active, k), k, Formatting(s.next + 1, e, tag))
            && TreeAfter(s.tree, s.open, s.active, k, f, g, s.next) == Adopted(s.tree, s.open[f - 1].id, s.open[g].id, None, e)
            && FreshId(InnerOf(s.open, s.active, f, g), s.next) == s.next
  {
    hide InnerOf;
    hide Inserted;
    hide Adopted;
  }

  lemma ClonedRound(s: Snapshot, k: nat, f: nat, g: nat, q: nat)
    requires 0 < f && f + 1 < g < |s.open| && 0 < k < |s.active| && s.active[k].Formatting?
    requires q < |s.active| && s.active[q].Formatting? && InnerOf(s.open, s.active, f, g) == Cloned(q)
    ensures var tag := s.active[k].tag;
            var c := Element(s.next, s.active[q].tag.name, s.active[q].tag.attributes);
            var e := Element(s.next + 1, tag.name, tag.attributes);
            && StackAfter(s.open, s.active, k, f, g, s.next) == Inserted(Removed(s.open[g - 1 := c], f), g, e)
            && ListAfter(s.open, s.active, k, f, g, s.next)
               == Inserted(Removed(s.active[q := s.active[q].(element := c)], k), if q < k then q + 1 else q, Formatting(s.next + 2, e, tag))
            && TreeAfter(s.tree, s.open, s.active, k, f, g, s.next) == Adopted(s.tree, s.open[f - 1].id, s.open[g].id, Some(c), e)
            && FreshId(InnerOf(s.open, s.active, f, g), s.next) == s.next + 1
  {
    hide InnerOf;
    hide Inserted;
    hide Removed;
    hide Adopted;
  }

  /**
   An element right below the block that has an entry is replaced by a clone, on the stack and in its entry;
   the new element comes right above the block, and its entry right after that of the clone.
   */
  lemma RoundWithClone(s: Snapshot, name: Name, p: nat, f: nat, g: nat, q: nat)
    requires Rehangs(s, name, p, f, g) && 0 < p && 0 < f && IsToClone(s, f, g, q)
    ensures q != p
    ensures var tag := s.active[p].tag;
            var c := Element(s.next, s.active[q].tag.name, s.active[q].tag.attributes);
            var e := Element(s.next + 1, tag.name, tag.attributes);
            var entries := [s.active[q].(element := c), Formatting(s.next + 2, e, tag)];
            var r := RoundOn(s, name);
            && r.open == s.open[..f] + s.open[f + 1..g - 1] + [c, s.open[g], e] + s.open[g + 1..]
            && r.active == (if q < p then s.active[..q] + entries + s.active[q + 1..p] + s.active[p + 1..]
                            else s.active[..p] + s.active[p + 1..q] + entries + s.active[q + 1..])
            && r.next == s.next + 3
            && r.tree == Adopted(s.tree, s.open[f - 1].id, s.open[g].id, Some(c), e)
  {
    hide *;
    PlanRehangs(s, name, p, f, g);
    InnerIs(s, f, g);
    RoundGoes(s, name);
    ToCloneIsOther(s, name, p, f, g, q);
    ClonedRound(s, p, f, g, q);
    var tag := s.active[p].tag;
    var c := Element(s.next, s.active[q].tag.name, s.active[q].tag.attributes);
    var e := Element(s.next + 1, tag.name, tag.attributes);
    CloneThenMove(s.open, f, g, c, e);
    if q < p {
      MoveDown(s.active, p, q, s.active[q].(element := c), Formatting(s.next + 2, e, tag));
    } else {
      MoveUp(s.active, p, q, s.active[q].(element := c), Formatting(s.next + 2, e, tag));
    }
  }

  lemma ToCloneIsOther(s: Snapshot, name: Name, p: nat, f: nat, g: nat, q: nat)
    requires Rehangs(s, name, p, f, g) && IsToClone(s, f, g, q)
    ensures f + 1 < g && q != p && q < |s.active| && s.active[q].Formatting?
  {
  }

  // The tree of a round: block and ancestor are nodes, neither of them a child of the block.
  ghost predicate CanAdopt(t: Tree, ancestor: NodeId, block: NodeId, next: NodeId) {
    && ancestor in t && block in t && ancestor != block && t[block].parent != Some(block) && next !in t && next + 1 !in t
    && forall c :: c in t[block].children ==> c in t && c != block && c != ancestor
  }

  lemma AdoptedNodes(t: Tree, ancestor: NodeId, block: NodeId, clone: Option<Element>, e: Element, next: NodeId)
    requires CanAdopt(t, ancestor, block, next)
    requires if clone.Some? then clone.value.id == next && e.id == next + 1 else e.id == next
    ensures var u := Adopted(t, ancestor, block, clone, e);
            && block in u && u[block].children == t[block].children + [e.id] && u[block].parent == Some(Last(ancestor, clone))
            && e.id in u && u[e.id] == Node(ElementNode(e), Some(block), t[block].children)
            && (forall c :: c in t[block].children ==> c in u && u[c].parent == Some(e.id))
            && (clone.Some? ==> next in u && u[next] == Node(ElementNode(clone.value), Some(ancestor), [block]))
            && ancestor in u && |u[ancestor].children| > 0 && u[ancestor].children[|u[ancestor].children| - 1] == Last(block, clone)
  {
    hide Rehung;
    hide Spliced;
    RehungList(t, ancestor, block, clone);
    RehungNodes(t, ancestor, block, clone);
    SplicedList(Rehung(t, ancestor, block, clone), block, e);
  }

  lemma CanAdoptHere(s: Snapshot, rank: map<NodeId, real>, f: nat, g: nat)
    requires Grounded(s.open, s.active, s.tree, rank, s.next) && 0 < f < g < |s.open|
    ensures CanAdopt(s.tree, s.open[f - 1].id, s.open[g].id, s.next)
  {
    hide WellFormed;
    hide Reaches;
    var t, block := s.tree, s.open[g].id;
    forall c | c in t[block].children
      ensures c in t && c != block && c != s.open[f - 1].id
    {
      assert Edge(t, block, c);
    }
    assert t[block].parent == Some(block) ==> Edge(t, block, block);
  }

  /**
   In the tree, the block comes last below the element that was below the formatting element, inside the clone
   if there is one; the new element takes over all children of the block, in their order, and becomes its last.
   */
  lemma BlockChangesHands(s: Snapshot, rank: map<NodeId, real>, name: Name, p: nat, f: nat, g: nat)
    requires Grounded(s.open, s.active, s.tree, rank, s.next) && Rehangs(s, name, p, f, g) && 0 < p && 0 < f
    ensures s.open[g].id in s.tree && p < |s.active| && s.active[p].Formatting?
    ensures var r, block, ancestor, made := RoundOn(s, name), s.open[g].id, s.open[f - 1].id, RoundOn(s, name).next - 2;
            var children := s.tree[block].children;
            var tag := s.active[p].tag;
            && block in r.tree && r.tree[block].children == children + [made]
            && r.tree[block].parent == Some(if NothingToClone(s, f, g) then ancestor else s.next)
            && made in r.tree && r.tree[made] == Node(ElementNode(Element(made, tag.name, tag.attributes)), Some(block), children)
            && (forall c :: c in children ==> c in r.tree && r.tree[c].parent == Some(made))
            && (!NothingToClone(s, f, g) ==> s.next in r.tree && r.tree[s.next].parent == Some(ancestor) && r.tree[s.next].children == [block])
            && ancestor in r.tree && |r.tree[ancestor].children| > 0
            && r.tree[ancestor].children[|r.tree[ancestor].children| - 1] == if NothingToClone(s, f, g) then block else s.next
  {
    hide *;
    PlanRehangs(s, name, p, f, g);
    CanAdoptHere(s, rank, f, g);
    CanAdoptMeans(s.tree, s.open[f - 1].id, s.open[g].id, s.next);
    var tag := s.active[p].tag;
    if NothingToClone(s, f, g) {
      RoundWithoutClone(s, name, p, f, g);
      AdoptedNodes(s.tree, s.open[f - 1].id, s.open[g].id, None, Element(s.next, tag.name, tag.attributes), s.next);
      LastIs(s.open[f - 1].id, s.open[g].id, None);
    } else {
      var q := SomethingToClone(s, f, g);
      RoundWithClone(s, name, p, f, g, q);
      ToCloneIsOther(s, name, p, f, g, q);
      var c := Element(s.next, s.active[q].tag.name, s.active[q].tag.attributes);
      AdoptedNodes(s.tree, s.open[f - 1].id, s.open[g].id, Some(c), Element(s.next + 1, tag.name, tag.attributes), s.next);
      LastIs(s.open[f - 1].id, s.open[g].id, Some(c));
    }
  }

  lemma CanAdoptMeans(t: Tree, ancestor: NodeId, block: NodeId, next: NodeId)
    requires CanAdopt(t, ancestor, block, next)
    ensures ancestor in t && block in t
  {
  }

  lemma LastIs(ancestor: NodeId, block: NodeId, clone: Option<Element>)
    ensures Last(ancestor, clone) == (if clone.Some? then clone.value.id else ancestor) && Last(block, clone) == if clone.Some? then clone.value.id else block
  {
  }

  lemma SomethingToClone(s: Snapshot, f: nat, g: nat) returns (q: nat)
    requires f < g < |s.open| && !NothingToClone(s, f, g)
    ensures IsToClone(s, f, g, q)
  {
    hide EntryOf;
    q := EntryOf(s.active, s.open[g - 1]);
  }

  /** The whole agency for such a state: it fails if the entry is the first of the list, and goes on after the round if not. */
  lemma AgencyRehangs(n: nat, s: Snapshot, name: Name, p: nat, f: nat, g: nat)
    requires n > 0 && Rehangs(s, name, p, f, g)
    ensures p == 0 ==> Rounds(n, s, name) == s && RoundsOutcome(n, s, name) == Failed(BeforeFirstEntry)
    ensures p > 0 ==> Rounds(n, s, name) == Rounds(n - 1, RoundOn(s, name), name) && RoundsOutcome(n, s, name) == RoundsOutcome(n - 1, RoundOn(s, name), name)
  {
    hide *;
    PlanRehangs(s, name, p, f, g);
    OneRound(n, s, name);
    RoundsUnfold(n, s, name);
    FailedRound(s, name);
  }

  lemma FailedRound(s: Snapshot, name: Name)
    ensures var plan := PlanOf(s.open, s.active, name);
            plan.Rehang? && plan.k == 0 ==> !GoesOn(s, name) && RoundOn(s, name) == s && RoundOutcome(s, name) == Failed(BeforeFirstEntry)
  {
    hide PlanOf;
    hide StackAfter;
    hide ListAfter;
    hide TreeAfter;
  }

  // ---------------------------------------------------------------------------------------------
  // The formatting element is ended

  // Whatever is open or listed was so before or is new.
  ghost predicate OnlyNew(s: Snapshot, r: Snapshot) {
    && s.next <= r.next
    && (forall e :: e in r.open ==> e in s.open || s.next <= e.id)
    && (forall e :: InList(e, r.active) ==> InList(e, s.active) || s.next <= e.id)
  }

  lemma {:induction false} RoundsOnlyAdd(n: nat, s: Snapshot, name: Name)
    ensures OnlyNew(s, Rounds(n, s, name))
  {
    hide *;
    RoundsUnfold(n, s, name);
    NothingNewIn(s);
    if n > 0 {
      RoundOnlyAdds(s, name);
      if GoesOn(s, name) {
        RoundsOnlyAdd(n - 1, RoundOn(s, name), name);
        OnlyNewThen(s, RoundOn(s, name), Rounds(n - 1, RoundOn(s, name), name));
      }
    }
  }

  lemma NothingNewIn(s: Snapshot)
    ensures OnlyNew(s, s)
  {
    hide InList;
  }

  lemma OnlyNewThen(s: Snapshot, r: Snapshot, q: Snapshot)
    requires OnlyNew(s, r) && OnlyNew(r, q)
    ensures OnlyNew(s, q)
  {
    hide InList;
  }

  lemma RoundOnlyAdds(s: Snapshot, name: Name)
    ensures OnlyNew(s, RoundOn(s, name))
  {
    hide *;
    NothingNewIn(s);
    var plan := PlanOf(s.open, s.active, name);
    RoundIs(s, name);
    if plan.Rehang? {
      if plan.k > 0 && plan.f > 0 {
        RoundGoes(s, name);
        RehangOnlyAdds(s, plan.k, plan.f, plan.g);
      } else {
        RoundStays(s, name);
      }
    } else {
      FewerOnly(s, plan, OtherMatch(s.open, name));
    }
  }

  lemma RoundStays(s: Snapshot, name: Name)
    requires var plan := PlanOf(s.open, s.active, name); plan.Rehang? && (plan.k == 0 || plan.f == 0)
    ensures RoundOn(s, name) == s
  {
    hide PlanOf;
    hide StackAfter;
    hide ListAfter;
    hide TreeAfter;
  }

  // Only closed or forgotten.
  lemma FewerOnly(s: Snapshot, plan: Plan, m: int)
    requires m < |s.open|
    ensures plan.Forget? && plan.k < |s.active| ==> OnlyNew(s, s.(active := Removed(s.active, plan.k)))
    ensures plan.CloseAll? && plan.k < |s.active| && plan.f <= |s.open| ==> OnlyNew(s, s.(open := s.open[..plan.f], active := Removed(s.active, plan.k)))
    ensures m >= 0 ==> OnlyNew(s, s.(open := s.open[..m]))
  {
    hide InList;
    if (plan.Forget? || plan.CloseAll?) && plan.k < |s.active| {
      ListOfRemoved(s.active, plan.k);
    }
  }

  lemma ListOfRemoved(active: Entries, k: nat)
    requires k < |active|
    ensures forall e :: InList(e, Removed(active, k)) ==> InList(e, active)
  {
    var list := Removed(active, k);
    assert forall p :: 0 <= p < |list| ==> list[p] == active[if p < k then p else p + 1];
  }

  lemma ListOfMoved(active: Entries, k: nat, b: nat, entry: Entry)
    requires k < |active| && b < |active| && entry.Formatting?
    ensures forall e :: InList(e, Inserted(Removed(active, k), b, entry)) ==> InList(e, active) || e == entry.element
  {
    ListOfRemoved(active, k);
    var rest := Removed(active, k);
    var list := Inserted(rest, b, entry);
    assert forall p :: 0 <= p < |list| ==> list[p] == if p < b then rest[p] else if p == b then entry else rest[p - 1];
    hide Removed;
    hide Inserted;
  }

  lemma ListOfReplaced(active: Entries, q: nat, e: Element)
    requires q < |active| && active[q].Formatting?
    ensures forall x :: InList(x, active[q := active[q].(element := e)]) ==> InList(x, active) || x == e
  {
  }

  lemma StackOfMoved(open: Stack, f: nat, g: nat, e: Element)
    requires f < |open| && g < |open|
    ensures forall x :: x in Inserted(Removed(open, f), g, e) ==> x in open || x == e
  {
  }

  lemma RehangOnlyAdds(s: Snapshot, k: nat, f: nat, g: nat)
    requires 0 < f < g < |s.open| && 0 < k < |s.active| && s.active[k].Formatting?
    ensures OnlyNew(s, Snapshot(StackAfter(s.open, s.active, k, f, g, s.next), ListAfter(s.open, s.active, k, f, g, s.next),
                                TreeAfter(s.tree, s.open, s.active, k, f, g, s.next), FreshId(InnerOf(s.open, s.active, f, g), s.next) + 2))
  {
    hide InList;
    hide InnerOf;
    hide Inserted;
    hide Removed;
    hide TreeAfter;
    var inner := InnerOf(s.open, s.active, f, g);
    var made := NewElement(FreshId(inner, s.next), s.active[k].tag);
    match inner
    case Same =>
      StackOfMoved(s.open, f, g, made);
      ListOfMoved(s.active, k, Bookmark(inner, k), Formatting(FreshId(inner, s.next) + 1, made, s.active[k].tag));
    case Dropped =>
      RemovedShorter(s.open, g - 1);
      StackOfMoved(Removed(s.open, g - 1), f, g - 1, made);
      ListOfMoved(s.active, k, Bookmark(inner, k), Formatting(FreshId(inner, s.next) + 1, made, s.active[k].tag));
    case Cloned(q) =>
      var c := NewElement(s.next, s.active[q].tag);
      ListOfReplaced(s.active, q, c);
      StackOfMoved(s.open[g - 1 := c], f, g, made);
      ListOfMoved(s.active[q := s.active[q].(element := c)], k, Bookmark(inner, k), Formatting(FreshId(inner, s.next) + 1, made, s.active[k].tag));
  }

  lemma RemovedShorter<T>(s: seq<T>, k: nat)
    requires k < |s|
    ensures |Removed(s, k)| == |s| - 1 && forall x :: x in Removed(s, k) ==> x in s
  {
  }

  // The lowest special element above a place, if there is one.
  lemma LowestSpecial(open: Stack, f: nat) returns (g: int)
    requires f < |open|
    ensures g == -1 || (f < g < |open| && IsSpecial(open[g].name))
    ensures forall i :: f < i < (if g >= 0 then g else |open|) ==> !IsSpecial(open[i].name)
  {
    hide IsSpecial;
    g := FurthestBlock(open, f);
    hide FurthestBlock;
  }

  /** In a body, a cell or a caption the element of an entry after the last marker is in scope wherever it is open. */
  lemma OpenEntryIsInScope(s: Snapshot, rank: map<NodeId, real>, name: Name, p: nat, f: nat)
    requires InFlow(s, rank) && IsFormatting(name) && IsLastEntry(s.active, p, name) && f < |s.open| && s.open[f] == s.active[p].element
    ensures forall i :: f < i < |s.open| ==> !EndsScope(Ordinary, s.open[i].name)
  {
    hide *;
    LastEntryIs(s.active, p, name);
    LastEntryBounds(s.active, p, name);
    FlowIsBalanced(s, rank);
    NothingMarkedAbove(s.open, s.active, p, f);
    AnchorOfFlow(s.open);
    AboveTheAnchor(s.open, name, f);
  }

  lemma FlowIsBalanced(s: Snapshot, rank: map<NodeId, real>)
    requires InFlow(s, rank)
    ensures s.open != [] && Balanced(s.open, s.active) && IsFlow(ZoneOf(s.open))
  {
    hide Balanced;
    hide Grounded;
    hide ZoneOf;
  }

  lemma AboveTheAnchor(open: Stack, name: Name, f: nat)
    requires IsFlow(ZoneOf(open)) && IsFormatting(name) && f < |open| && open[f].name == name
    requires forall i :: f < i < |open| ==> !TakesMarker(open[i].name)
    ensures forall i :: f < i < |open| ==> !EndsScope(Ordinary, open[i].name)
  {
    AnchorOfFlow(open);
    hide ZoneOf;
    hide Anchor;
    assert Anchor(open) < f;
  }

  /**
   However many rounds the adoption agency takes, the formatting element it was for is neither open nor in the
   list afterwards; only where it fails nothing has changed.
   */
  lemma AgencyEnds(n: nat, s: Snapshot, rank: map<NodeId, real>, name: Name, p: nat)
    requires n > 0 && InFlow(s, rank) && IsFormatting(name) && IsLastEntry(s.active, p, name)
    ensures if p == 0 && exists f, i :: 0 <= f < i < |s.open| && s.open[f] == s.active[p].element && IsSpecial(s.open[i].name)
            then RoundsOutcome(n, s, name) == Failed(BeforeFirstEntry) && Rounds(n, s, name) == s
            else s.active[p].element !in Rounds(n, s, name).open && !InList(s.active[p].element, Rounds(n, s, name).active)
  {
    hide *;
    LastEntryBounds(s.active, p, name);
    FlowIsGrounded(s, rank);
    var e := s.active[p].element;
    if e !in s.open {
      AgencyForgets(n, s, name, p);
      ForgottenIsGone(s, rank, name, p);
    } else {
      var f := PlaceOfElement(s.open, e);
      OpenEntryIsInScope(s, rank, name, p, f);
      var g := LowestSpecial(s.open, f);
      if g < 0 {
        AgencyCloses(n, s, name, p, f);
        GoneWhenClosed(s, rank, name, p, f);
      } else {
        RehangsIf(s, name, p, f, g);
        AgencyRehangs(n, s, name, p, f, g);
        if p > 0 {
          PlanRehangs(s, name, p, f, g);
          RootStays(s, rank, name);
          GoneAfterRound(s, rank, name, p, f, g);
          RoundsOnlyAdd(n - 1, RoundOn(s, name), name);
          StillGone(e, s, RoundOn(s, name), Rounds(n - 1, RoundOn(s, name), name));
        }
      }
      OnlyPlace(s.open, f, e);
    }
  }

  lemma PlaceOfElement(open: Stack, e: Element) returns (f: nat)
    requires e in open
    ensures f < |open| && open[f] == e
  {
    f :| f < |open| && open[f] == e;
  }

  lemma OnlyPlace(open: Stack, f: nat, e: Element)
    requires Distinct(open) && f < |open| && open[f] == e
    ensures forall i :: 0 <= i < |open| && open[i] == e ==> i == f
  {
  }

  lemma ForgottenIsGone(s: Snapshot, rank: map<NodeId, real>, name: Name, p: nat)
    requires Grounded(s.open, s.active, s.tree, rank, s.next) && IsLastEntry(s.active, p, name)
    ensures !InList(s.active[p].element, s.active[..p] + s.active[p + 1..])
  {
    hide *;
    LastEntryBounds(s.active, p, name);
    GroundedList(s.open, s.active, s.tree, rank, s.next);
    EntryGoes(s.active, p);
    ListGone(s.active, p, [], s.active[p].element, s.active[..p] + s.active[p + 1..]);
  }

  lemma RehangsIf(s: Snapshot, name: Name, p: nat, f: nat, g: nat)
    requires IsLastEntry(s.active, p, name) && Distinct(s.open) && f < g < |s.open| && s.open[f] == s.active[p].element
    requires IsSpecial(s.open[g].name) && forall i :: f < i < g ==> !IsSpecial(s.open[i].name)
    requires forall i :: f < i < |s.open| ==> !EndsScope(Ordinary, s.open[i].name)
    ensures Rehangs(s, name, p, f, g)
  {
    hide IsSpecial;
    hide EndsScope;
  }

  lemma FlowIsGrounded(s: Snapshot, rank: map<NodeId, real>)
    requires InFlow(s, rank)
    ensures Grounded(s.open, s.active, s.tree, rank, s.next) && Distinct(s.open)
    ensures forall e :: e in s.open ==> e.id < s.next
  {
    GroundedIsDistinct(s.open, s.active, s.tree, rank, s.next);
    hide Balanced;
    hide WellFormed;
    hide Linked;
    hide Ranked;
    hide Reaches;
  }

  lemma GoneWhenClosed(s: Snapshot, rank: map<NodeId, real>, name: Name, p: nat, f: nat)
    requires Grounded(s.open, s.active, s.tree, rank, s.next) && Distinct(s.open)
    requires f < |s.open| && IsLastEntry(s.active, p, name) && s.open[f] == s.active[p].element
    ensures s.open[f] !in s.open[..f] && !InList(s.open[f], s.active[..p] + s.active[p + 1..])
  {
    ForgottenIsGone(s, rank, name, p);
    hide Grounded;
    hide IsLastEntry;
  }

  lemma GoneAfterRound(s: Snapshot, rank: map<NodeId, real>, name: Name, p: nat, f: nat, g: nat)
    requires Grounded(s.open, s.active, s.tree, rank, s.next) && Rehangs(s, name, p, f, g) && 0 < p && 0 < f && forall e :: e in s.open ==> e.id < s.next
    ensures f < |s.open| && s.open[f] !in RoundOn(s, name).open && !InList(s.open[f], RoundOn(s, name).active)
    ensures s.next <= RoundOn(s, name).next && s.open[f].id < s.next
  {
    hide *;
    PlanRehangs(s, name, p, f, g);
    RehangsMeans(s, name, p, f, g);
    assert s.open[f] in s.open && s.open[f].id < s.next;
    var tag, m := s.active[p].tag, if g == f + 1 then g else g - 1;
    GroundedList(s.open, s.active, s.tree, rank, s.next);
    EntryGoes(s.active, p);
    if NothingToClone(s, f, g) {
      RoundWithoutClone(s, name, p, f, g);
      var e := Element(s.next, tag.name, tag.attributes);
      StackGone(s.open, f, m, g, [s.open[g], e]);
      ListGone(s.active, p, [Formatting(s.next + 1, e, tag)], s.open[f], RoundOn(s, name).active);
    } else {
      var q := SomethingToClone(s, f, g);
      RoundWithClone(s, name, p, f, g, q);
      ToCloneIsOther(s, name, p, f, g, q);
      var c := Element(s.next, s.active[q].tag.name, s.active[q].tag.attributes);
      var e := Element(s.next + 1, tag.name, tag.attributes);
      StackGone(s.open, f, m, g, [c, s.open[g], e]);
      ListGone(s.active, p, [s.active[q].(element := c), Formatting(s.next + 2, e, tag)], s.open[f], RoundOn(s, name).active);
    }
  }

  lemma GroundedList(open: Stack, active: Entries, t: Tree, rank: map<NodeId, real>, next: NodeId)
    requires Grounded(open, active, t, rank, next)
    ensures WellFormed(active)
  {
    hide WellFormed;
  }

  lemma RehangsMeans(s: Snapshot, name: Name, p: nat, f: nat, g: nat)
    requires Rehangs(s, name, p, f, g)
    ensures Distinct(s.open) && f < g < |s.open| && p < |s.active| && s.active[p].Formatting? && s.open[f] == s.active[p].element
    ensures s.open[f] != s.open[g]
  {
    hide IsSpecial;
    hide EndsScope;
  }

  lemma EntryGoes(active: Entries, p: nat)
    requires WellFormed(active) && p < |active| && active[p].Formatting?
    ensures forall entry: Entry :: entry in active[..p] || entry in active[p + 1..] ==> entry.Formatting? ==> entry.element != active[p].element
  {
    hide Ark;
    hide OwnElement;
  }

  lemma StackGone(open: Stack, f: nat, m: nat, g: nat, new_: Stack)
    requires Distinct(open) && f < m <= g < |open| && open[f] !in new_
    ensures open[f] !in open[..f] + open[f + 1..m] + new_ + open[g + 1..]
  {
  }

  lemma ListGone(active: Entries, p: nat, new_: Entries, e: Element, list: Entries)
    requires p < |active| && forall entry :: entry in list ==> entry in active[..p] || entry in active[p + 1..] || entry in new_
    requires forall entry: Entry :: entry in active[..p] || entry in active[p + 1..] || entry in new_ ==> entry.Formatting? ==> entry.element != e
    ensures !InList(e, list)
  {
    forall i | 0 <= i < |list|
      ensures list[i].Formatting? ==> list[i].element != e
    {
      assert list[i] in list;
    }
  }

  lemma StillGone(e: Element, s: Snapshot, r: Snapshot, q: Snapshot)
    requires OnlyNew(r, q) && e !in r.open && !InList(e, r.active) && e.id < s.next <= r.next
    ensures e !in q.open && !InList(e, q.active)
  {
    hide InList;
  }

  // ---------------------------------------------------------------------------------------------
  // End tags by name

  // The topmost element with one of the names, in scope.
  predicate InScopeAt(open: Stack, k: int, names: set<Name>, scope: Scope) {
    && 0 <= k < |open| && open[k].name in names
    && forall j :: k < j < |open| ==> open[j].name !in names && !EndsScope(scope, open[j].name)
  }

  lemma ScopeAt(open: Stack, names: set<Name>, scope: Scope)
    ensures forall k :: InScopeAt(open, k, names, scope) ==> 0 <= k < |open| && InScope(open, names, scope) && Topmost(open, names) == k
    ensures (forall k :: !InScopeAt(open, k, names, scope)) ==> !InScope(open, names, scope)
  {
    hide Topmost;
    hide EndsScope;
    var m := Topmost(open, names);
    assert InScope(open, names, scope) ==> InScopeAt(open, m, names, scope);
  }

  /** The end tags of formatting elements, and no others, run the adoption agency. */
  lemma EndOfFormatting(tag: Tag, s: Snapshot, form: Option<FormElement>)
    requires tag.name in {A, B, Big, Code, Em, Font, I, Nobr, S, Small, Strike, Strong, Tt, U}
    ensures IsFormatting(tag.name) && EndStep(tag, s, form) == Rounds(8, s, tag.name)
  {
    hide Rounds;
    hide InScope;
    hide WithoutParagraph;
  }

  // What is closed if an element is found, and what stays if none is.
  ghost predicate ClosesAt(s: Snapshot, r: Snapshot, names: set<Name>, scope: Scope) {
    && (forall k :: InScopeAt(s.open, k, names, scope) ==> r == s.(open := s.open[..k]))
    && ((forall k :: !InScopeAt(s.open, k, names, scope)) ==> r == s)
  }

  lemma ClosesAtPlace(s: Snapshot, names: set<Name>, scope: Scope)
    ensures ClosesAt(s, s.(open := CutAt(s.open, if InScope(s.open, names, scope) then Topmost(s.open, names) else -1)), names, scope)
  {
    hide Topmost;
    hide InScope;
    hide InScopeAt;
    ScopeAt(s.open, names, scope);
    assert s.(open := s.open) == s;
  }

  /** The end tag of a block closes the topmost element of the name, if that is in scope. */
  lemma EndOfBlock(tag: Tag, s: Snapshot, form: Option<FormElement>)
    requires tag.name in {Address, Article, Aside, Blockquote, Button, Center, Dd, Details, Dialog, Dir, Div, Dl, Dt, Fieldset, Figcaption,
                          Figure, Footer, Header, Hgroup, Listing, MainName, Menu, Nav, Ol, Pre, Section, Summary, Ul}
    ensures ClosesAt(s, EndStep(tag, s, form), {tag.name}, Ordinary)
  {
    hide *;
    BlockEnds(tag, s, form);
    ClosesAtPlace(s, {tag.name}, Ordinary);
  }

  lemma BlockEnds(tag: Tag, s: Snapshot, form: Option<FormElement>)
    requires tag.name in {Address, Article, Aside, Blockquote, Button, Center, Dd, Details, Dialog, Dir, Div, Dl, Dt, Fieldset, Figcaption,
                          Figure, Footer, Header, Hgroup, Listing, MainName, Menu, Nav, Ol, Pre, Section, Summary, Ul}
    ensures EndStep(tag, s, form) == s.(open := CutAt(s.open, if InScope(s.open, {tag.name}, Ordinary) then Topmost(s.open, {tag.name}) else -1))
  {
    hide InScope;
    hide Topmost;
    hide OtherMatch;
    hide CutAt;
  }

  lemma EndOfListItem(tag: Tag, s: Snapshot, form: Option<FormElement>)
    requires tag.name == Li
    ensures ClosesAt(s, EndStep(tag, s, form), {Li}, ListItem)
  {
    ClosesAtPlace(s, {Li}, ListItem);
    hide InScope;
    hide Topmost;
    hide OtherMatch;
    hide CutAt;
    hide ClosesAt;
  }

  /** The end tag of a heading closes the topmost heading, whichever it is. */
  lemma EndOfHeading(tag: Tag, s: Snapshot, form: Option<FormElement>)
    requires tag.name in {H1, H2, H3, H4, H5, H6}
    ensures ClosesAt(s, EndStep(tag, s, form), {H1, H2, H3, H4, H5, H6}, Ordinary)
  {
    ClosesAtPlace(s, {H1, H2, H3, H4, H5, H6}, Ordinary);
    hide InScope;
    hide Topmost;
    hide OtherMatch;
    hide CutAt;
    hide ClosesAt;
  }

  /** The end tag of a p closes the topmost p in button scope; without one, a p is inserted that does not stay open. */
  lemma EndOfParagraph(tag: Tag, s: Snapshot, form: Option<FormElement>)
    requires tag.name == P
    ensures forall k :: InScopeAt(s.open, k, {P}, ButtonScope) ==> EndStep(tag, s, form) == s.(open := s.open[..k])
    ensures (forall k :: !InScopeAt(s.open, k, {P}, ButtonScope)) && s.open != [] ==>
              EndStep(tag, s, form) == s.(tree := Grown(s.tree, Top(s.open).id, s.next, ElementNode(Element(s.next, P, map[]))), next := s.next + 1)
  {
    ScopeAt(s.open, {P}, ButtonScope);
    hide Topmost;
    hide InScope;
    hide InScopeAt;
    hide Grown;
  }

  /** The end tag of an applet, marquee or object also forgets the formatting begun in it. */
  lemma EndOfEmbedded(tag: Tag, s: Snapshot, form: Option<FormElement>)
    requires tag.name in {Applet, Marquee, ObjectName}
    ensures forall k :: InScopeAt(s.open, k, {tag.name}, Ordinary) ==>
              EndStep(tag, s, form) == s.(open := s.open[..k], active := if LastMarker(s.active) < 0 then s.active else s.active[..LastMarker(s.active)])
    ensures (forall k :: !InScopeAt(s.open, k, {tag.name}, Ordinary)) ==> EndStep(tag, s, form) == s
  {
    hide *;
    ScopeAt(s.open, {tag.name}, Ordinary);
    EmbeddedEnds(tag, s, form);
  }

  lemma EmbeddedEnds(tag: Tag, s: Snapshot, form: Option<FormElement>)
    requires tag.name in {Applet, Marquee, ObjectName}
    ensures var k := Topmost(s.open, {tag.name});
            EndStep(tag, s, form) ==
            if InScope(s.open, {tag.name}, Ordinary)
            then s.(open := s.open[..k], active := if LastMarker(s.active) < 0 then s.active else s.active[..LastMarker(s.active)])
            else s
  {
    hide InScope;
    hide Topmost;
    hide LastMarker;
    hide OtherMatch;
    assert InScope(s.open, {tag.name}, Ordinary) ==> Topmost(s.open, {tag.name}) >= 0 by { ScopeIsPlace(s.open, {tag.name}, Ordinary); }
  }

  lemma ScopeIsPlace(open: Stack, names: set<Name>, scope: Scope)
    ensures InScope(open, names, scope) ==> Topmost(open, names) >= 0
  {
  }

  /** Any other end tag closes the topmost element of its name, if nothing special is above that. */
  lemma EndOfOther(tag: Tag, s: Snapshot, form: Option<FormElement>)
    requires tag.name !in {Address, Article, Aside, Blockquote, Button, Center, Dd, Details, Dialog, Dir, Div, Dl, Dt, Fieldset, Figcaption,
                           Figure, Footer, Header, Hgroup, Listing, MainName, Menu, Nav, Ol, Pre, Section, Summary, Ul}
    requires tag.name !in {A, B, Big, Code, Em, Font, I, Nobr, S, Small, Strike, Strong, Tt, U}
    requires tag.name !in {Applet, Body, Br, Form, H1, H2, H3, H4, H5, H6, Html, Li, Marquee, ObjectName, P}
    ensures forall k :: ClosesUnspecial(s.open, k, tag.name) ==> EndStep(tag, s, form) == s.(open := s.open[..k])
    ensures (forall k :: !ClosesUnspecial(s.open, k, tag.name)) ==> EndStep(tag, s, form) == s
  {
    hide *;
    OtherEnds(tag, s, form);
    OtherMatchIs(s.open, tag.name);
  }

  lemma OtherEnds(tag: Tag, s: Snapshot, form: Option<FormElement>)
    requires tag.name !in {Address, Article, Aside, Blockquote, Button, Center, Dd, Details, Dialog, Dir, Div, Dl, Dt, Fieldset, Figcaption,
                           Figure, Footer, Header, Hgroup, Listing, MainName, Menu, Nav, Ol, Pre, Section, Summary, Ul}
    requires tag.name !in {A, B, Big, Code, Em, Font, I, Nobr, S, Small, Strike, Strong, Tt, U}
    requires tag.name !in {Applet, Body, Br, Form, H1, H2, H3, H4, H5, H6, Html, Li, Marquee, ObjectName, P}
    ensures EndStep(tag, s, form) == if OtherMatch(s.open, tag.name) < 0 then s else s.(open := s.open[..OtherMatch(s.open, tag.name)])
  {
    hide OtherMatch;
    hide InScope;
    hide Topmost;
  }

  /**
   The end tag of a form takes the remembered form out wherever it is, after everything on top that an end tag
   may imply; without a form in scope nothing changes.
   */
  lemma EndOfForm(tag: Tag, s: Snapshot, form: Option<FormElement>, k: nat)
    requires tag.name == Form && k <= |s.open|
    requires forall i :: k <= i < |s.open| ==> s.open[i].name in {Dd, Dt, Li, OptionName, Optgroup, P, Rp, Rt}
    requires k > 0 ==> s.open[k - 1].name !in {Dd, Dt, Li, OptionName, Optgroup, P, Rp, Rt}
    ensures form == None || (forall j :: !InScopeAt(s.open, j, {Form}, Ordinary)) ==> EndStep(tag, s, form) == s
    ensures form.Some? && (exists j :: InScopeAt(s.open, j, {Form}, Ordinary)) ==>
              && (form.value !in s.open[..k] ==> EndStep(tag, s, form) == s.(open := s.open[..k]))
              && forall f :: 0 <= f < k && s.open[f] == form.value && form.value !in s.open[..f] ==>
                   EndStep(tag, s, form) == s.(open := s.open[..f] + s.open[f + 1..k])
  {
    hide *;
    ScopeAt(s.open, {Form}, Ordinary);
    ImpliedAt(s.open, k);
    FormEnds(tag, s, form);
    if form.Some? {
      FormPlace(s.open, k, form.value);
    }
  }

  lemma ImpliedAt(open: Stack, k: nat)
    requires k <= |open| && forall i :: k <= i < |open| ==> open[i].name in {Dd, Dt, Li, OptionName, Optgroup, P, Rp, Rt}
    requires k > 0 ==> open[k - 1].name !in {Dd, Dt, Li, OptionName, Optgroup, P, Rp, Rt}
    ensures ImpliedCut(open, {}) == k
  {
    hide ImpliedCut;
    assert k > 0 ==> !HasImpliedEnd(open[k - 1].name);
  }

  lemma FormEnds(tag: Tag, s: Snapshot, form: Option<FormElement>)
    requires tag.name == Form
    ensures EndStep(tag, s, form) ==
            if form.Some? && InScope(s.open, {Form}, Ordinary)
            then s.(open := var cut := s.open[..ImpliedCut(s.open, {})]; if IndexOf(cut, form.value) < 0 then cut else Removed(cut, IndexOf(cut, form.value)))
            else s
  {
    hide InScope;
    hide ImpliedCut;
    hide IndexOf;
  }

  lemma FormPlace(open: Stack, k: nat, form: Element)
    requires k <= |open|
    ensures form !in open[..k] ==> IndexOf(open[..k], form) < 0
    ensures forall f :: 0 <= f < k && open[f] == form && form !in open[..f] ==>
              IndexOf(open[..k], form) == f && Removed(open[..k], f) == open[..f] + open[f + 1..k]
  {
    hide IndexOf;
    forall f | 0 <= f < k && open[f] == form && form !in open[..f]
      ensures IndexOf(open[..k], form) == f
    {
      FirstPlace(open[..k], form, f);
      assert open[..k][..f] == open[..f];
    }
  }

  lemma FirstPlace(open: Stack, e: Element, f: nat)
    requires f < |open| && open[f] == e && e !in open[..f]
    ensures IndexOf(open, e) == f
  {
    hide IndexOf;
    var m := IndexOf(open, e);
    forall i | 0 <= i < |open|
      ensures i < f ==> open[i] in open[..f]
      ensures 0 <= i < m ==> open[i] in open[..m]
    {
      assert i < f ==> open[..f][i] == open[i];
      assert i < m ==> open[..m][i] == open[i];
    }
  }
}
