/** Two short runs: one that the adoption agency cannot finish, and one that leaves a node listed twice. */
module HtmlRuns {
  import opened Wrappers
  import opened HtmlNames
  import opened HtmlStack
  import opened HtmlFormatting
  import opened HtmlTree
  import opened HtmlState
  import opened HtmlAdoption
  import opened HtmlBody

  // A body with nothing in it.
  function EmptyBody(): Snapshot {
    var html, body := Element(1, Html, map[]), Element(2, Body, map[]);
    Snapshot([html, body], [],
             map[0 := Node(DocumentNode, None, [1]), 1 := Node(ElementNode(html), Some(0), [2]), 2 := Node(ElementNode(body), Some(1), [])], 3)
  }

  function Tagged(n: Name): Tag {
    Tag(n, map[])
  }

  // What a start tag without attributes comes to.
  function After(s: Snapshot, n: Name): Snapshot {
    BodyStep(StartTag(Tagged(n)), s, false, false, None)
  }

  ghost predicate IsSound(s: Snapshot, rank: map<NodeId, real>) {
    Sound(s.open, s.active, s.tree, rank, s.next) && Consistent(s.tree)
  }

  lemma EmptyBodySound() returns (rank: map<NodeId, real>)
    ensures IsSound(EmptyBody(), rank) && ZoneOf(EmptyBody().open) == BodyZone
  {
    hide *;
    rank := map[0 := 0.0, 1 := 1.0, 2 := 2.0];
    EmptyBodyIs();
    EmptyBodyLineage(rank);
    InEmptyBody(EmptyBody().open);
    EmptyListIsBalanced(EmptyBody().open);
    SoundWithoutEntries(EmptyBody(), rank);
  }

  lemma SoundWithoutEntries(s: Snapshot, rank: map<NodeId, real>)
    requires Lineage(s.tree, rank, s.open) && Consistent(s.tree) && Balanced(s.open, s.active) && s.active == []
    requires DOCUMENT in s.tree && forall id :: id in s.tree ==> id < s.next
    ensures IsSound(s, rank)
  {
    hide Lineage;
    hide Consistent;
    hide Balanced;
  }

  lemma EmptyBodyLineage(rank: map<NodeId, real>)
    requires rank == map[0 := 0.0, 1 := 1.0, 2 := 2.0]
    ensures Consistent(EmptyBody().tree) && Lineage(EmptyBody().tree, rank, EmptyBody().open)
    ensures DOCUMENT in EmptyBody().tree && forall id :: id in EmptyBody().tree ==> id < 3
  {
    EmptyBodyTree(rank);
    hide Consistent;
    hide Linked;
    hide Ranked;
    hide Reaches;
  }

  lemma EmptyBodyTree(rank: map<NodeId, real>)
    requires rank == map[0 := 0.0, 1 := 1.0, 2 := 2.0]
    ensures var t := EmptyBody().tree; Consistent(t) && Linked(t) && Ranked(t, rank) && Reaches(t, 1, 1) && Reaches(t, 1, 2)
  {
    var t := EmptyBody().tree;
    assert Edge(t, 0, 1) && Edge(t, 1, 2);
    ReachesSelf(t, 1);
    ReachesStep(t, 1, 1, 2);
    hide Reaches;
  }

  lemma EmptyListIsBalanced(open: Stack)
    requires |open| == 2 && open[0].name.Html? && open[1].name.Body?
    ensures Balanced(open, [])
  {
    NoTakers(open);
  }

  lemma OpenedIsSound(s: Snapshot, rank: map<NodeId, real>, tag: Tag) returns (later: map<NodeId, real>)
    requires IsSound(s, rank) && s.open != [] && !TakesMarker(tag.name)
    ensures IsSound(Opened(s, tag), later)
  {
    var e, top := NewElement(s.next, tag), Top(s.open).id;
    GroundedPush(s.open, s.active, s.tree, rank, s.next, tag);
    SoundPush(s.open, s.active, s.tree, rank, s.next, tag);
    NewIsUnknown(s.open, s.active, s.tree, rank, s.next, e);
    GrownConsistent(s.tree, top, s.next, ElementNode(e));
    later := rank[s.next := rank[top] + 1.0];
    hide Grounded;
    hide Balanced;
    hide Consistent;
  }

  lemma FormattedIsSound(s: Snapshot, rank: map<NodeId, real>, tag: Tag) returns (later: map<NodeId, real>)
    requires IsSound(s, rank) && s.open != [] && IsFormatting(tag.name) && |s.active| < 3
    ensures IsSound(Formatted(s, tag), later)
  {
    var r, e := Opened(s, tag), NewElement(s.next, tag);
    FormattingTakesNoMarker(tag.name);
    later := OpenedIsSound(s, rank, tag);
    FewKin(s.active, FamilyOf(e));
    NewIsUnknown(s.open, s.active, s.tree, rank, s.next, e);
    hide Sound;
    hide Consistent;
    hide InList;
    hide Kin;
    hide IsFormatting;
    assert Top(r.open) == e;
    SoundEntry(r.open, r.active, r.tree, later, r.next, tag);
  }

  lemma FormattingTakesNoMarker(n: Name)
    requires IsFormatting(n)
    ensures !TakesMarker(n)
  {
  }

  lemma {:induction false} FewKin(active: Entries, f: Family)
    ensures Kin(active, f) <= |active|
  {
    if active != [] {
      FewKin(active[..|active| - 1], f);
    }
  }

  lemma NothingToReconstruct(s: Snapshot)
    requires s.open != [] && (s.active == [] || s.active[|s.active| - 1].Marker? || s.active[|s.active| - 1].element in s.open)
    ensures Reconstructed(s) == s
  {
    ReopenedNone(s.active, |s.active|, s.next);
  }

  // ---------------------------------------------------------------------------------------------
  // <b><p></b>

  function BeforeMisnestedEnd(): Snapshot {
    After(After(EmptyBody(), B), P)
  }

  // A formatting element goes below the current node and at the end of the list.
  lemma AfterFormatting(s: Snapshot, n: Name)
    requires n == B || n == I
    requires s.open != [] && |s.active| < 3 && (s.active == [] || (s.active[|s.active| - 1].Formatting? && s.active[|s.active| - 1].element in s.open))
    ensures var e := Element(s.next, n, map[]);
            && After(s, n) == Formatted(s, Tagged(n)) && After(s, n).open == s.open + [e]
            && After(s, n).active == s.active + [Formatting(s.next + 1, e, Tagged(n))] && After(s, n).next == s.next + 2
  {
    hide *;
    NothingToReconstruct(s);
    FormattingStep(s, n);
    FormattedIs(s, n);
  }

  lemma FormattedIs(s: Snapshot, n: Name)
    requires |s.active| < 3
    ensures var e, r := Element(s.next, n, map[]), Formatted(s, Tagged(n));
            && r.open == s.open + [e] && r.active == s.active + [Formatting(s.next + 1, e, Tagged(n))] && r.next == s.next + 2
  {
    hide Grown;
    hide Kin;
    FewKin(s.active, Family(n, 0));
  }

  lemma FormattingStep(s: Snapshot, n: Name)
    requires n == B || n == I
    ensures After(s, n) == Formatted(Reconstructed(s), Tagged(n))
  {
    hide Formatted;
    hide Reconstructed;
    hide Opened;
    hide Voided;
  }

  lemma ParagraphStep(s: Snapshot)
    ensures After(s, P) == Opened(WithoutParagraph(s), Tagged(P))
  {
    hide Formatted;
    hide Reconstructed;
    hide Opened;
    hide Voided;
    hide WithoutParagraph;
  }

  lemma AfterParagraph(s: Snapshot)
    requires s.open != [] && forall e :: e in s.open ==> e.name != P
    ensures After(s, P) == Opened(s, Tagged(P))
    ensures After(s, P).open == s.open + [Element(s.next, P, map[])] && After(s, P).active == s.active && After(s, P).next == s.next + 1
  {
    NoParagraph(s.open);
    ParagraphStep(s);
    hide After;
    hide WithoutP;
    hide Grown;
  }

  lemma NoParagraph(open: Stack)
    requires forall e :: e in open ==> e.name != P
    ensures WithoutP(open) == open
  {
    if Topmost(open, {P}) >= 0 {
      assert open[Topmost(open, {P})] in open;
    }
  }

  lemma EmptyBodyIs()
    ensures EmptyBody().active == [] && EmptyBody().next == 3
    ensures EmptyBody().open == [Element(1, Html, map[]), Element(2, Body, map[])]
    ensures !TakesMarker(P) && IsFormatting(B) && IsFormatting(I) && forall n :: Tagged(n).name == n
  {
  }

  lemma BeforeMisnestedEndUnfolds()
    ensures BeforeMisnestedEnd() == After(After(EmptyBody(), B), P)
  {
  }

  lemma BeforeMisnestedEndIs()
    ensures var s := BeforeMisnestedEnd();
            && s == Opened(Formatted(EmptyBody(), Tagged(B)), Tagged(P))
            && s.open == [Element(1, Html, map[]), Element(2, Body, map[]), Element(3, B, map[]), Element(5, P, map[])]
            && s.active == [Formatting(4, Element(3, B, map[]), Tagged(B))]
  {
    hide *;
    BeforeMisnestedEndUnfolds();
    EmptyBodyIs();
    AfterFormatting(EmptyBody(), B);
    AfterParagraph(After(EmptyBody(), B));
  }

  /** In an empty body, a b with a p in it cannot be ended: the agency looks before the only entry of the list. */
  lemma MisnestedParagraph() returns (rank: map<NodeId, real>)
    ensures IsSound(BeforeMisnestedEnd(), rank) && ZoneOf(BeforeMisnestedEnd().open) == BodyZone
    ensures FaultOf(InBody, EndTag(Tagged(B)), BeforeMisnestedEnd()) == Some(BeforeFirstEntry)
  {
    hide *;
    EmptyBodyIs();
    BeforeMisnestedEndIs();
    AfterFormatting(EmptyBody(), B);
    rank := EmptyBodySound();
    rank := FormattedIsSound(EmptyBody(), rank, Tagged(B));
    rank := OpenedIsSound(Formatted(EmptyBody(), Tagged(B)), rank, Tagged(P));
    var s := BeforeMisnestedEnd();
    InEmptyBody(s.open);
    LooksBeforeTheOnly(s.open, s.active);
    FaultIsLooking(s);
  }

  lemma FaultIsLooking(s: Snapshot)
    requires LooksBefore(s.open, s.active, B)
    ensures FaultOf(InBody, EndTag(Tagged(B)), s) == Some(BeforeFirstEntry)
  {
    hide LooksBefore;
  }

  lemma {:induction false} InEmptyBody(open: Stack)
    requires |open| > 1 && open[0].name.Html? && open[1].name.Body? && forall i :: 1 < i < |open| ==> open[i].name.B? || open[i].name.I? || open[i].name.P?
    ensures ZoneOf(open) == BodyZone && Anchor(open) == 1
    decreases |open|
  {
    if |open| == 2 {
      assert Below(Below(open)) == [] && ZoneOf([]) == Nothing;
      assert ZoneOf(Below(open)) == HtmlZone;
    } else {
      InEmptyBody(Below(open));
      OnePlainMore(open);
    }
  }

  lemma OnePlainMore(open: Stack)
    requires |open| > 2 && (Top(open).name.B? || Top(open).name.I? || Top(open).name.P?)
    requires ZoneOf(Below(open)) == BodyZone && Anchor(Below(open)) == 1
    ensures ZoneOf(open) == BodyZone && Anchor(open) == 1
  {
  }

  lemma LooksBeforeTheOnly(open: Stack, active: Entries)
    requires |open| == 4 && open[0].name.Html? && open[1].name.Body? && open[2].name.B? && open[3].name.P?
    requires |active| == 1 && active[0].Formatting? && active[0].element == open[2]
    ensures LooksBefore(open, active, B)
  {
    assert LastNamed(active, B) == 0;
    assert IndexOf(open, open[2]) == 2;
    assert Topmost(open, {B}) == 2;
    FurthestBlockIs(open, 2, 3);
  }

  // ---------------------------------------------------------------------------------------------
  // <i><b><p>x</b>

  function BeforeSecondParent(): Snapshot {
    Typed(After(After(After(EmptyBody(), I), B), P), 'x')
  }

  lemma TypedIsSound(s: Snapshot, rank: map<NodeId, real>, data: char) returns (later: map<NodeId, real>)
    requires IsSound(s, rank) && s.open != [] && !EndsInText(s.tree, Top(s.open).id)
    ensures IsSound(Typed(s, data), later) && Typed(s, data).open == s.open && Typed(s, data).active == s.active
    ensures Top(s.open).id in Typed(s, data).tree && Typed(s, data).tree[Top(s.open).id].children != []
  {
    var place := Top(s.open).id;
    GroundedLeaf(s.open, s.active, s.tree, rank, s.next, place, TextNode([data]));
    GrownConsistent(s.tree, place, s.next, TextNode([data]));
    later := rank[s.next := rank[place] + 1.0];
    hide Grounded;
    hide Balanced;
    hide Consistent;
  }

  lemma OpenedIsEmpty(s: Snapshot, rank: map<NodeId, real>, tag: Tag)
    requires IsSound(s, rank) && s.open != []
    ensures !EndsInText(Opened(s, tag).tree, s.next)
  {
    hide Linked;
    hide Ranked;
    hide Reaches;
    hide Balanced;
  }

  lemma WithinItalics()
    ensures var s, i, b := After(After(EmptyBody(), I), B), Element(3, I, map[]), Element(5, B, map[]);
            && s == Formatted(Formatted(EmptyBody(), Tagged(I)), Tagged(B)) && s.next == 7
            && |s.open| == 4 && s.open[0].name.Html? && s.open[1].name.Body? && s.open[2] == i && s.open[3] == b
            && s.active == [Formatting(4, i, Tagged(I)), Formatting(6, b, Tagged(B))]
  {
    hide *;
    EmptyBodyIs();
    AfterFormatting(EmptyBody(), I);
    AfterFormatting(After(EmptyBody(), I), B);
  }

  lemma BeforeSecondParentIs()
    ensures var r, s := After(After(EmptyBody(), I), B), After(After(After(EmptyBody(), I), B), P);
            && s == Opened(r, Tagged(P)) && s.active == r.active && r.next == 7
            && |s.open| == 5 && s.open[..4] == r.open && s.open[4] == Element(7, P, map[]) && Top(s.open) == s.open[4]
  {
    hide *;
    WithinItalics();
    FourWithoutP(After(After(EmptyBody(), I), B).open);
    AfterParagraph(After(After(EmptyBody(), I), B));
    FiveOpen(After(After(EmptyBody(), I), B).open, Element(7, P, map[]));
  }

  lemma FourWithoutP(open: Stack)
    requires |open| == 4 && open[0].name.Html? && open[1].name.Body? && open[2].name.I? && open[3].name.B?
    ensures forall e :: e in open ==> e.name != P
  {
  }

  lemma FiveOpen(open: Stack, e: Element)
    requires |open| == 4
    ensures (open + [e])[..4] == open && (open + [e])[4] == e == Top(open + [e])
  {
  }

  /**
   With an i around the b and a character in the p the agency can go on, but the p keeps listing the text
   that the new b takes over.
   */
  lemma TextListedTwice() returns (rank: map<NodeId, real>)
    ensures var s := BeforeSecondParent();
            && IsSound(s, rank) && InRound(s.open, s.active, s.tree, rank, s.next, 1, 3, 4)
            && PlanOf(s.open, s.active, B) == Rehang(1, 3, 4)
            && !Consistent(TreeAfter(s.tree, s.open, s.active, 1, 3, 4, s.next))
  {
    hide *;
    EmptyBodyIs();
    WithinItalics();
    BeforeSecondParentIs();
    AfterFormatting(EmptyBody(), I);
    rank := EmptyBodySound();
    rank := FormattedIsSound(EmptyBody(), rank, Tagged(I));
    rank := FormattedIsSound(After(EmptyBody(), I), rank, Tagged(B));
    OpenedIsEmpty(After(After(EmptyBody(), I), B), rank, Tagged(P));
    rank := OpenedIsSound(After(After(EmptyBody(), I), B), rank, Tagged(P));
    rank := TypedIsSound(After(After(After(EmptyBody(), I), B), P), rank, 'x');
    var s := BeforeSecondParent();
    assert s == Typed(After(After(After(EmptyBody(), I), B), P), 'x') by { BeforeSecondParentUnfolds(); }
    InEmptyBody(s.open);
    GoesOnAtSecond(s.open, s.active);
    SecondInRound(s, rank);
    RoundConsistentIff(s.open, s.active, s.tree, rank, s.next, 1, 3, 4);
  }

  lemma BeforeSecondParentUnfolds()
    ensures BeforeSecondParent() == Typed(After(After(After(EmptyBody(), I), B), P), 'x')
  {
  }

  lemma GoesOnAtSecond(open: Stack, active: Entries)
    requires |open| == 5 && open[2].name.I? && open[3].name.B? && open[4].name.P?
    requires |active| == 2 && active[0].Formatting? && active[1].Formatting? && active[1].element == open[3] && open[3] !in open[..3]
    ensures PlanOf(open, active, B) == Rehang(1, 3, 4) && LastMarker(active) == -1
  {
    assert LastNamed(active, B) == 1;
    assert IndexOf(open, open[3]) == 3;
    assert Topmost(open, {B}) == 3;
    FurthestBlockIs(open, 3, 4);
    LastMarkerIs(active, -1);
  }

  lemma SecondInRound(s: Snapshot, rank: map<NodeId, real>)
    requires IsSound(s, rank) && ZoneOf(s.open) == BodyZone && Anchor(s.open) == 1
    requires |s.open| == 5 && |s.active| == 2 && LastMarker(s.active) == -1 && s.active[1].Formatting? && s.active[1].element == s.open[3]
    ensures InRound(s.open, s.active, s.tree, rank, s.next, 1, 3, 4) && Consistent(s.tree)
  {
    hide Sound;
    hide Consistent;
    hide ZoneOf;
    hide Anchor;
    hide LastMarker;
  }
}
