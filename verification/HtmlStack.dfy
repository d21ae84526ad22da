/**
 The stack of open elements: which stacks each insertion mode allows, and what the scope tests and the
 closing of elements say about a stack.
 */
module HtmlStack {
  import opened HtmlNames
  import opened Wrappers

  type NodeId = int

  // An element node as the stack and the formatting list refer to it; `id` is its identity.
  datatype Element = Element(id: NodeId, name: Name, attributes: map<string, string>)

  type Stack = seq<Element>

  function Top(open: Stack): Element
    requires open != []
  {
    open[|open| - 1]
  }

  function Below(open: Stack): Stack
    requires open != []
  {
    open[..|open| - 1]
  }

  ghost predicate Distinct(open: Stack) {
    forall i, j :: 0 <= i < j < |open| ==> open[i] != open[j]
  }

  function Removed<T>(s: seq<T>, k: nat): (r: seq<T>)
    requires k < |s|
  {
    s[..k] + s[k + 1..]
  }

  function Inserted<T>(s: seq<T>, k: nat, x: T): (r: seq<T>)
    requires k <= |s|
  {
    s[..k] + [x] + s[k..]
  }

  // The first place of x, or -1.
  function IndexOf<T(==)>(s: seq<T>, x: T): (k: int)
    ensures -1 <= k < |s|
    ensures k >= 0 <==> x in s
    ensures k >= 0 ==> s[k] == x && x !in s[..k]
  {
    if s == [] then -1
    else if s[|s| - 1] == x && x !in s[..|s| - 1] then |s| - 1
    else
      assert s == s[..|s| - 1] + [s[|s| - 1]];
      var k := IndexOf(s[..|s| - 1], x);
      assert k >= 0 ==> s[..|s| - 1][..k] == s[..k];
      k
  }

  // ---------------------------------------------------------------------------------------------
  // The shape of a stack

  // Where a stack ends: a stack is a path of nested regions, read from the root.
  datatype Zone =
    | Nothing | HtmlZone | HeadZone | NoscriptZone | FramesetZone
    | BodyZone | CellZone | CaptionZone
    | SelectZone | TableZone | ColgroupZone | TableBodyZone | RowZone
    | Astray

  predicate IsFlow(z: Zone) {
    z.BodyZone? || z.CellZone? || z.CaptionZone?
  }

  function Enter(z: Zone, n: Name): Zone {
    match z
    case Nothing => if n.Html? then HtmlZone else Astray
    case HtmlZone => if n.Head? then HeadZone else if n.Body? then BodyZone else if n.Frameset? then FramesetZone else Astray
    case HeadZone => if n.Noscript? then NoscriptZone else Astray
    case FramesetZone => if n.Frameset? then FramesetZone else Astray
    case BodyZone | CellZone | CaptionZone =>
      if IsPlain(n) then z else if n.Table? then TableZone else if n.Select? then SelectZone else Astray
    case SelectZone => if n.Optgroup? || n.OptionName? then SelectZone else Astray
    case TableZone =>
      if n.Caption? then CaptionZone else if n.Colgroup? then ColgroupZone else if IsTableBody(n) then TableBodyZone else Astray
    case TableBodyZone => if n.Tr? then RowZone else Astray
    case RowZone => if IsCell(n) then CellZone else Astray
    case _ => Astray
  }

  function ZoneFrom(z: Zone, open: Stack): Zone {
    if open == [] then z else Enter(ZoneFrom(z, Below(open)), Top(open).name)
  }

  function ZoneOf(open: Stack): Zone {
    ZoneFrom(Nothing, open)
  }

  // The zone an insertion mode stands for; `Text` and `InTableText` go back to another mode.
  function Home(m: Mode): Zone
    requires !m.Text? && !m.InTableText?
  {
    match m
    case Initial | BeforeHtml => Nothing
    case BeforeHead | AfterHead | AfterFrameset | AfterAfterFrameset => HtmlZone
    case InHead => HeadZone
    case InHeadNoscript => NoscriptZone
    case InBody | AfterBody | AfterAfterBody => BodyZone
    case InTable => TableZone
    case InCaption => CaptionZone
    case InColumnGroup => ColgroupZone
    case InTableBody => TableBodyZone
    case InRow => RowZone
    case InCell => CellZone
    case InSelect | InSelectInTable => SelectZone
    case InFrameset => FramesetZone
    case _ => Astray
  }

  // Modes a run of text may go back to.
  predicate TakesText(m: Mode) {
    !m.Initial? && !m.BeforeHtml? && !m.BeforeHead? && !m.InColumnGroup? && !m.Text? && !m.InTableText?
  }

  ghost predicate Fits(mode: Mode, original: Mode, open: Stack) {
    match mode
    case Text => open != [] && !HoldsNothing(Top(open).name) && TakesText(original) && ZoneOf(Below(open)) == Home(original)
    case InTableText => IsRowMode(original) && ZoneOf(open) == Home(original)
    case _ => ZoneOf(open) == Home(mode)
  }

  /** What an insertion mode tells about the stack, read off its zone. */
  lemma ShapeOfMode(mode: Mode, original: Mode, open: Stack)
    requires Fits(mode, original, open)
    ensures mode.InTable? ==> EndsWithTable(open)
    ensures mode.InColumnGroup? ==> |open| > 2 && Top(open).name.Colgroup? && EndsWithTable(Below(open))
    ensures mode.InTableBody? ==> EndsWithTableBody(open)
    ensures mode.InRow? ==> EndsWithRow(open)
    ensures mode.InCell? ==> exists k :: 0 < k < |open| && IsCell(open[k].name) && AllPlain(open[k + 1..]) && EndsWithRow(open[..k])
    ensures mode.InCaption? ==> exists k :: 0 < k < |open| && open[k].name.Caption? && AllPlain(open[k + 1..]) && EndsWithTable(open[..k])
    ensures mode.InBody? || mode.AfterBody? || mode.AfterAfterBody? ==>
              |open| > 1 && open[0].name.Html? && open[1].name.Body? && AllPlain(open[2..])
  {
    hide ZoneFrom;
    hide Anchor;
    if mode.InCell? || mode.InCaption? || HomeOrAstray(mode).BodyZone? {
      FlowShape(open);
    } else if mode.InTable? {
      TableShape(open);
    } else if mode.InColumnGroup? {
      ColgroupShape(open);
    } else if mode.InTableBody? {
      TableBodyShape(open);
    } else if mode.InRow? {
      RowShape(open);
    }
  }

  lemma FlowShape(open: Stack)
    requires IsFlow(ZoneOf(open))
    ensures var a := Anchor(open);
            && 0 < a && AllPlain(open[a + 1..])
            && open[0].name.Html? && open[1].name.Body?
            && (ZoneOf(open).BodyZone? ==> a == 1)
            && (ZoneOf(open).CellZone? ==> IsCell(open[a].name) && EndsWithRow(open[..a]))
            && (ZoneOf(open).CaptionZone? ==> open[a].name.Caption? && EndsWithTable(open[..a]))
  {
    AnchorOfFlow(open);
    BelowAnchor(open);
    hide ZoneFrom;
    hide Anchor;
    if ZoneOf(open).CellZone? { RowShape(open[..Anchor(open)]); }
    if ZoneOf(open).CaptionZone? { TableShape(open[..Anchor(open)]); }
  }

  function HomeOrAstray(m: Mode): Zone {
    if m.Text? || m.InTableText? then Astray else Home(m)
  }

  predicate AllPlain(open: Stack) {
    forall e :: e in open ==> IsPlain(e.name)
  }

  // A table directly in a body, a cell or a caption.
  predicate EndsWithTable(open: Stack) {
    |open| > 2 && Top(open).name.Table? && IsFlow(ZoneOf(Below(open)))
  }

  predicate EndsWithTableBody(open: Stack) {
    |open| > 2 && IsTableBody(Top(open).name) && EndsWithTable(Below(open))
  }

  predicate EndsWithRow(open: Stack) {
    |open| > 2 && Top(open).name.Tr? && EndsWithTableBody(Below(open))
  }

  lemma TableShape(open: Stack)
    requires ZoneOf(open) == TableZone
    ensures EndsWithTable(open)
  {
    AnchorOfFlow(Below(open));
  }

  lemma ColgroupShape(open: Stack)
    requires ZoneOf(open) == ColgroupZone
    ensures |open| > 2 && Top(open).name.Colgroup? && EndsWithTable(Below(open))
  {
    TableShape(Below(open));
  }

  lemma TableBodyShape(open: Stack)
    requires ZoneOf(open) == TableBodyZone
    ensures EndsWithTableBody(open)
  {
    TableShape(Below(open));
  }

  lemma RowShape(open: Stack)
    requires ZoneOf(open) == RowZone
    ensures EndsWithRow(open)
  {
    TableBodyShape(Below(open));
  }

  // ---------------------------------------------------------------------------------------------
  // Flow zones: plain elements above an anchor, the innermost body, cell or caption

  function Anchor(open: Stack): (a: int)
    ensures -1 <= a < |open|
    ensures a >= 0 ==> !IsPlain(open[a].name)
    ensures forall i :: a < i < |open| ==> IsPlain(open[i].name)
  {
    if open == [] then -1
    else if !IsPlain(Top(open).name) then |open| - 1
    else Anchor(Below(open))
  }

  lemma {:induction false} AnchorOfFlow(open: Stack)
    requires IsFlow(ZoneOf(open))
    ensures 0 < Anchor(open)
    ensures open[0].name.Html? && open[1].name.Body?
    ensures ZoneOf(open).BodyZone? ==> Anchor(open) == 1
    ensures ZoneOf(open).CellZone? ==> IsCell(open[Anchor(open)].name)
    ensures ZoneOf(open).CaptionZone? ==> open[Anchor(open)].name.Caption?
  {
    RootOfAny(open);
    if IsPlain(Top(open).name) {
      if ZoneOf(Below(open)) == HeadZone { assert false; }
      AnchorOfFlow(Below(open));
    } else {
      var z := ZoneOf(Below(open));
      if z == HtmlZone { HtmlAlone(Below(open)); }
    }
  }

  lemma {:induction false} HtmlAlone(open: Stack)
    ensures ZoneOf(open) == Nothing <==> open == []
    ensures ZoneOf(open) == HtmlZone <==> |open| == 1 && open[0].name.Html?
    ensures ZoneOf(open) == HeadZone ==> |open| == 2 && open[0].name.Html? && open[1].name.Head?
  {
    if open != [] {
      HtmlAlone(Below(open));
    }
  }

  lemma {:induction false} RootOfAny(open: Stack)
    requires ZoneOf(open) != Astray && open != []
    ensures open[0].name.Html?
    ensures ZoneOf(open) !in {HtmlZone, HeadZone, NoscriptZone, FramesetZone} ==> |open| > 1 && open[1].name.Body?
  {
    HtmlAlone(Below(open));
    if |open| > 1 {
      RootOfAny(Below(open));
    }
  }

  /** A stack that agrees with a flow stack up to its anchor and is plain above it is in the same zone. */
  lemma {:induction false} SameFlow(open: Stack, other: Stack)
    requires IsFlow(ZoneOf(open))
    requires Anchor(open) < |other| && other[..Anchor(open) + 1] == open[..Anchor(open) + 1]
    requires forall i :: Anchor(open) < i < |other| ==> IsPlain(other[i].name)
    ensures ZoneOf(other) == ZoneOf(open) && Anchor(other) == Anchor(open)
  {
    FlowAtAnchor(open);
    PlainAbove(other[..Anchor(open) + 1], other);
  }

  lemma {:induction false} FlowAtAnchor(open: Stack)
    requires IsFlow(ZoneOf(open))
    ensures ZoneOf(open[..Anchor(open) + 1]) == ZoneOf(open)
    decreases |open|
  {
    if IsPlain(Top(open).name) {
      RootOfAny(open);
      FlowAtAnchor(Below(open));
      assert open[..Anchor(open) + 1] == Below(open)[..Anchor(open) + 1];
    } else {
      assert open[..Anchor(open) + 1] == open;
    }
  }

  lemma {:induction false} PlainAbove(base: Stack, open: Stack)
    requires base <= open && IsFlow(ZoneOf(base)) && !IsPlain(Top(base).name)
    requires forall i :: |base| <= i < |open| ==> IsPlain(open[i].name)
    ensures ZoneOf(open) == ZoneOf(base) && Anchor(open) == |base| - 1
  {
    if |open| == |base| {
      assert open == base;
    } else {
      PlainAbove(base, Below(open));
    }
  }

  lemma FlowCut(open: Stack, k: nat)
    requires IsFlow(ZoneOf(open)) && Anchor(open) < k <= |open|
    ensures ZoneOf(open[..k]) == ZoneOf(open) && Anchor(open[..k]) == Anchor(open)
  {
    assert open[..k][..Anchor(open) + 1] == open[..Anchor(open) + 1];
    SameFlow(open, open[..k]);
  }

  lemma FlowPush(open: Stack, e: Element)
    requires IsFlow(ZoneOf(open)) && IsPlain(e.name)
    ensures ZoneOf(open + [e]) == ZoneOf(open) && Anchor(open + [e]) == Anchor(open)
  {
    assert Below(open + [e]) == open;
  }

  lemma {:induction false} ZoneFromSplit(z: Zone, lower: Stack, upper: Stack)
    ensures ZoneFrom(z, lower + upper) == ZoneFrom(ZoneFrom(z, lower), upper)
  {
    if upper == [] {
      assert lower + upper == lower;
    } else {
      ZoneFromSplit(z, lower, Below(upper));
      assert Below(lower + upper) == lower + Below(upper);
    }
  }

  lemma {:induction false} AstrayForGood(z: Zone, open: Stack)
    requires z == Astray || (z == NoscriptZone && open != [])
    ensures ZoneFrom(z, open) == Astray
  {
    if open != [] && (z == Astray || |open| > 1) {
      AstrayForGood(z, Below(open));
    }
  }

  /** Taking a plain element out of a stack leaves it in the same zone, wherever the element was. */
  lemma FlowRemove(open: Stack, k: nat)
    requires IsFlow(ZoneOf(open)) && k < |open| && IsPlain(open[k].name)
    ensures ZoneOf(Removed(open, k)) == ZoneOf(open)
  {
    var lower, upper := open[..k], open[k + 1..];
    assert open == (lower + [open[k]]) + upper;
    assert Below(lower + [open[k]]) == lower;
    ZoneFromSplit(Nothing, lower + [open[k]], upper);
    ZoneFromSplit(Nothing, lower, upper);
    var z := ZoneOf(lower + [open[k]]);
    if z == Astray || (z == NoscriptZone && upper != []) {
      AstrayForGood(z, upper);
    }
  }

  // ---------------------------------------------------------------------------------------------
  // Scopes and closing

  // The place of the topmost element with one of the names, or -1.
  function Topmost(open: Stack, names: set<Name>): (k: int)
    ensures -1 <= k < |open|
    ensures k >= 0 ==> open[k].name in names
    ensures forall i :: k < i < |open| ==> open[i].name !in names
  {
    if open == [] then -1
    else if Top(open).name in names then |open| - 1
    else Topmost(Below(open), names)
  }

  // Some element with one of the names is reached from the top before anything that ends the scope.
  predicate InScope(open: Stack, names: set<Name>, scope: Scope) {
    var k := Topmost(open, names);
    k >= 0 && forall i :: k < i < |open| ==> !EndsScope(scope, open[i].name)
  }

  // The stack once an open p in button scope is closed, and once an open list item is.
  function WithoutP(open: Stack): Stack {
    if InScope(open, {P}, ButtonScope) then open[..Topmost(open, {P})] else open
  }

  // Special elements other than address, div and p end the search for an element to close.
  predicate EndsSearch(n: Name) {
    IsSpecial(n) && !n.Address? && !n.Div? && !n.P?
  }

  predicate InListItem(open: Stack) {
    var k := Topmost(open, {Li});
    k >= 0 && forall j :: k < j < |open| ==> !EndsSearch(open[j].name)
  }

  // The topmost li, with nothing above it that is special but address, div and p.
  predicate ListItemAt(open: Stack, k: int) {
    && 0 <= k < |open| && open[k].name == Li
    && forall j :: k < j < |open| ==> open[j].name != Li && (IsSpecial(open[j].name) ==> open[j].name in {Address, Div, P})
  }

  lemma ListItemIs(open: Stack)
    ensures forall k :: ListItemAt(open, k) ==> InListItem(open) && Topmost(open, {Li}) == k
    ensures InListItem(open) ==> ListItemAt(open, Topmost(open, {Li}))
  {
    hide Topmost;
    hide IsSpecial;
  }

  function WithoutLi(open: Stack): Stack {
    if InListItem(open) then open[..Topmost(open, {Li})] else open
  }

  /** A list item that the search finds is in list item scope. */
  lemma ListItemInScope(open: Stack)
    requires InListItem(open)
    ensures InScope(open, {Li}, ListItem)
  {
    forall i | Topmost(open, {Li}) < i < |open|
      ensures !EndsScope(ListItem, open[i].name)
    {
      EndsScopeEndsSearch(open[i].name);
    }
  }

  lemma EndsScopeEndsSearch(n: Name)
    ensures EndsScope(ListItem, n) ==> EndsSearch(n)
  {
  }

  // The element an end tag without a rule of its own closes, or -1 if a special element is in the way.
  function OtherMatch(open: Stack, n: Name): (k: int)
    ensures -1 <= k < |open|
    ensures k >= 0 <==> exists i :: 0 <= i < |open| && open[i].name == n && forall j :: i < j < |open| ==> !IsSpecial(open[j].name)
    ensures k >= 0 ==> k == Topmost(open, {n})
  {
    if open == [] then -1
    else if Top(open).name == n then |open| - 1
    else if IsSpecial(Top(open).name) then -1
    else
      assert forall i :: 0 <= i < |open| && open[i].name == n ==> i < |Below(open)| && Below(open)[i] == open[i];
      OtherMatch(Below(open), n)
  }

  // In a select: the stack once an option on top is closed, and once an optgroup is, with an option directly in it.
  function WithoutOption(open: Stack): Stack {
    if open != [] && Top(open).name.OptionName? then Below(open) else open
  }

  function WithoutOptgroup(open: Stack): Stack {
    var rest := if |open| > 1 && Top(open).name.OptionName? && Top(Below(open)).name.Optgroup? then Below(open) else open;
    if rest != [] && Top(rest).name.Optgroup? then Below(rest) else rest
  }

  // The stack on which an option or an optgroup is opened.
  function OptionBase(open: Stack, n: Name): Stack {
    var rest := WithoutOption(open);
    if n.Optgroup? && rest != [] && Top(rest).name.Optgroup? then WithoutOptgroup(rest) else rest
  }

  // The place of the element that an end tag in a body closes, if it is not one of a body, a p, a form or
  // a formatting element; -1 if it closes none.
  function ClosingPlace(open: Stack, n: Name): (k: int)
    ensures -1 <= k < |open|
    ensures k >= 0 && IsHeading(n) ==> IsHeading(open[k].name)
    ensures k >= 0 && !IsHeading(n) ==> open[k].name == n
  {
    if IsHeading(n) then if InScope(open, {H1, H2, H3, H4, H5, H6}, Ordinary) then Topmost(open, {H1, H2, H3, H4, H5, H6}) else -1
    else if IsBlock(n) || n.Button? || n.Pre? || n.Listing? || n.Dd? || n.Dt? || IsEmbedded(n) then
      if InScope(open, {n}, Ordinary) then Topmost(open, {n}) else -1
    else if n.Li? then if InScope(open, {n}, ListItem) then Topmost(open, {n}) else -1
    else OtherMatch(open, n)
  }

  // The stack cut below that place.
  function CutAt(open: Stack, k: int): Stack
    requires k <= |open|
  {
    if k < 0 then open else open[..k]
  }

  // The stack without the elements an implied end tag closes.
  function ImpliedCut(open: Stack, spared: set<Name>): (k: nat)
    ensures k <= |open|
    ensures forall i :: k <= i < |open| ==> HasImpliedEnd(open[i].name) && open[i].name !in spared
    ensures k > 0 ==> !HasImpliedEnd(open[k - 1].name) || open[k - 1].name in spared
  {
    if open == [] then 0
    else if HasImpliedEnd(Top(open).name) && Top(open).name !in spared then ImpliedCut(Below(open), spared)
    else |open|
  }

  /** Implied end tags stop above the element that is about to be closed. */
  lemma ImpliedStopsAbove(open: Stack, names: set<Name>, spared: set<Name>)
    requires Topmost(open, names) >= 0
    requires forall n :: n in names ==> !HasImpliedEnd(n) || n in spared
    ensures Topmost(open, names) < ImpliedCut(open, spared)
    ensures Topmost(open[..ImpliedCut(open, spared)], names) == Topmost(open, names)
  {
    var k := ImpliedCut(open, spared);
    var t := Topmost(open, names);
    assert !HasImpliedEnd(open[t].name) || open[t].name in spared;
    TopmostOfPrefix(open, names, k);
  }

  lemma {:induction false} TopmostOfPrefix(open: Stack, names: set<Name>, k: nat)
    requires Topmost(open, names) < k <= |open|
    ensures Topmost(open[..k], names) == Topmost(open, names)
  {
    if k == |open| {
      assert open[..k] == open;
    } else {
      TopmostOfPrefix(Below(open), names, k);
      assert Below(open)[..k] == open[..k];
    }
  }

  // ---------------------------------------------------------------------------------------------
  // Loops that test the element they have come to instead of the one they popped

  // Pops until an element of the name is the current one; None if the stack runs out first.
  function PopTo(open: Stack, n: Name): Option<Stack>
    requires open != []
  {
    var rest := Below(open);
    if rest == [] then None else if Top(rest).name == n then Some(rest) else PopTo(rest, n)
  }

  // Closing an open p, dd or dt the way `close_a_p_element` and the dd and dt start tags go about it.
  function ClosedLate(open: Stack, n: Name): Option<Stack>
    requires Topmost(open, {n}) >= 0
  {
    ImpliedStopsAbove(open, {n}, {n});
    PopTo(open[..ImpliedCut(open, {n})], n)
  }

  lemma {:induction false} PopToIs(open: Stack, n: Name)
    requires open != []
    ensures var k := Topmost(Below(open), {n});
            PopTo(open, n) == if k < 0 then None else Some(open[..k + 1])
  {
    var rest := Below(open);
    if rest != [] && Top(rest).name != n {
      PopToIs(rest, n);
      var k := Topmost(Below(rest), {n});
      assert Topmost(rest, {n}) == k;
      assert k >= 0 ==> rest[..k + 1] == open[..k + 1];
    } else if rest != [] {
      assert Topmost(rest, {n}) == |rest| - 1;
      assert open[..|rest|] == rest;
    }
  }

  lemma ClosedLateIs(open: Stack, n: Name)
    requires Topmost(open, {n}) >= 0
    ensures var c := ImpliedCut(open, {n});
            && Topmost(open, {n}) < c
            && var q := Topmost(open[..c - 1], {n}); ClosedLate(open, n) == if q < 0 then None else Some(open[..q + 1])
  {
    hide Topmost;
    hide ImpliedCut;
    hide PopTo;
    var c := ImpliedCut(open, {n});
    ImpliedStopsAbove(open, {n}, {n});
    PopToIs(open[..c], n);
    assert Below(open[..c]) == open[..c - 1];
    var q := Topmost(open[..c - 1], {n});
    assert q >= 0 ==> open[..c][..q + 1] == open[..q + 1];
  }

  /**
   These loops close the innermost element of the name if and only if it is the current one, once
   implied end tags are dealt with, and the element right below it has the same name.  With anything
   left above it they leave it open; without another one below they run off the stack.
   */
  lemma ClosesLateIff(open: Stack, n: Name)
    requires Topmost(open, {n}) >= 0
    ensures var k, c := Topmost(open, {n}), ImpliedCut(open, {n});
            && (ClosedLate(open, n) == Some(open[..k]) <==> c == k + 1 && k > 0 && open[k - 1].name == n)
            && (ClosedLate(open, n) == None <==> c == k + 1 && Topmost(open[..k], {n}) < 0)
            && (c > k + 1 ==> ClosedLate(open, n) == Some(open[..k + 1]))
  {
    hide *;
    ClosedLateIs(open, n);
    var k, c := Topmost(open, {n}), ImpliedCut(open, {n});
    if c > k + 1 {
      TopmostOfPrefix(open, {n}, c - 1);
      assert |open[..k + 1]| != |open[..k]|;
    } else {
      var q := Topmost(open[..k], {n});
      if q >= 0 {
        assert open[q].name in {n};
        assert |open[..q + 1]| == q + 1 && |open[..k]| == k;
      }
      assert k > 0 && q < k - 1 ==> open[..k][k - 1].name !in {n};
    }
  }

  /** A p in a body, to be closed for a dd: the loop runs off the stack. */
  lemma LateParagraph()
    ensures var open := [Element(1, Html, map[]), Element(2, Body, map[]), Element(3, P, map[])];
            InScope(open, {P}, ButtonScope) && ClosedLate(open, P) == None
  {
    var open := [Element(1, Html, map[]), Element(2, Body, map[]), Element(3, P, map[])];
    assert Topmost(open, {P}) == 2;
    ImpliedStopsAbove(open, {P}, {P});
    assert ImpliedCut(open, {P}) == 3;
    ClosesLateIff(open, P);
    assert open[..2] == [open[0], open[1]];
    assert Below(open[..2]) == [open[0]];
  }

  /** In a flow zone, whatever is closed in scope by a plain name is above the anchor. */
  lemma InScopeAboveAnchor(open: Stack, names: set<Name>, scope: Scope)
    requires IsFlow(ZoneOf(open)) && !scope.TableScope? && InScope(open, names, scope)
    requires forall n :: n in names ==> IsPlain(n)
    ensures Anchor(open) < Topmost(open, names)
  {
    AnchorOfFlow(open);
    assert IsPlain(open[Topmost(open, names)].name);
    assert ZoneOf(open).BodyZone? || EndsScope(scope, open[Anchor(open)].name);
  }

  lemma OtherMatchAboveAnchor(open: Stack, n: Name)
    requires IsFlow(ZoneOf(open)) && OtherMatch(open, n) >= 0
    requires Anchor(open) >= 0 && n != open[Anchor(open)].name
    ensures Anchor(open) < OtherMatch(open, n)
  {
    AnchorOfFlow(open);
  }

  // ---------------------------------------------------------------------------------------------
  // Table regions

  lemma BelowAnchor(open: Stack)
    requires IsFlow(ZoneOf(open))
    ensures 0 < Anchor(open)
    ensures ZoneOf(open).CellZone? ==> ZoneOf(open[..Anchor(open)]) == RowZone && IsCell(open[Anchor(open)].name)
    ensures ZoneOf(open).CaptionZone? ==> ZoneOf(open[..Anchor(open)]) == TableZone && open[Anchor(open)].name.Caption?
  {
    AnchorOfFlow(open);
    FlowAtAnchor(open);
    var base := open[..Anchor(open) + 1];
    assert Below(base) == open[..Anchor(open)] && Top(base) == open[Anchor(open)];
  }

  lemma {:induction false} TopmostAtAnchor(open: Stack, names: set<Name>, a: nat)
    requires a < |open| && forall i :: a < i < |open| ==> open[i].name !in names
    ensures open[a].name in names ==> Topmost(open, names) == a
    ensures open[a].name !in names ==> Topmost(open, names) < a
  {
  }

  /** In a cell, exactly the element of the cell itself is a td or th in table scope. */
  lemma CellInScope(open: Stack, n: Name)
    requires ZoneOf(open).CellZone? && IsCell(n)
    ensures 0 < Anchor(open) && (InScope(open, {n}, TableScope) <==> open[Anchor(open)].name == n)
    ensures InScope(open, {n}, TableScope) ==> Topmost(open, {n}) == Anchor(open)
  {
    hide ZoneOf;
    hide Anchor;
    hide Topmost;
    hide IsPlain;
    BelowAnchor(open);
    CellIsFlow(open, n);
    var a := Anchor(open);
    RowShape(open[..a]);
    RowNames(open, a);
    TopmostAtAnchor(open, {n}, a);
  }

  lemma CellIsFlow(open: Stack, n: Name)
    requires ZoneOf(open).CellZone? && IsCell(n)
    ensures IsFlow(ZoneOf(open)) && forall i :: Anchor(open) < i < |open| ==> open[i].name != n && !open[i].name.Table? && !open[i].name.Html?
  {
    hide ZoneOf;
  }

  // The elements above a table, at the end of the first k.
  lemma RowNames(open: Stack, k: nat)
    requires k <= |open| && EndsWithRow(open[..k])
    ensures k >= 3 && open[k - 1].name.Tr? && IsTableBody(open[k - 2].name) && open[k - 3].name.Table?
  {
    hide ZoneOf;
    assert open[k - 1] == Top(open[..k]) && open[k - 2] == Top(Below(open[..k])) && open[k - 3] == Top(Below(Below(open[..k])));
  }

  lemma CaptionInScope(open: Stack)
    requires ZoneOf(open).CaptionZone?
    ensures InScope(open, {Caption}, TableScope) && Topmost(open, {Caption}) == Anchor(open)
  {
    BelowAnchor(open);
    hide ZoneOf;
    hide Anchor;
    TopmostAtAnchor(open, {Caption}, Anchor(open));
  }

  lemma TopInScope(open: Stack, n: Name)
    requires open != [] && Top(open).name == n
    ensures InScope(open, {n}, TableScope) && Topmost(open, {n}) == |open| - 1
  {
  }

  lemma TopOfNames(open: Stack, names: set<Name>)
    requires open != [] && Top(open).name in names
    ensures Topmost(open, names) == |open| - 1 && open[..Topmost(open, names) + 1] == open
  {
  }

  lemma ZonePush(open: Stack, e: Element)
    ensures ZoneOf(open + [e]) == Enter(ZoneOf(open), e.name)
  {
    assert Below(open + [e]) == open;
  }

  /** The table around a cell is in table scope. */
  lemma TableOfCell(open: Stack)
    requires ZoneOf(open).CellZone?
    ensures InScope(open, {Table}, TableScope)
  {
    BelowAnchor(open);
    RowShape(open[..Anchor(open)]);
    hide ZoneOf;
    hide Anchor;
    hide Topmost;
    var a := Anchor(open);
    assert open[a - 1] == Top(open[..a]) && open[a - 2] == Top(Below(open[..a])) && open[a - 3] == Top(Below(Below(open[..a])));
    TopmostAtAnchor(open, {Table}, a - 3);
  }

  // A zone has no place for an element that holds nothing.
  lemma {:induction false} NoneHoldsNothing(open: Stack)
    requires ZoneOf(open) != Astray
    ensures forall e :: e in open ==> !HoldsNothing(e.name)
  {
    if open != [] {
      NoneHoldsNothing(Below(open));
      NoPlaceFor(ZoneOf(Below(open)), Top(open).name);
      assert open == Below(open) + [Top(open)];
    }
  }

  lemma NoPlaceFor(z: Zone, n: Name)
    requires Enter(z, n) != Astray
    ensures !HoldsNothing(n) && z != Astray
  {
  }
}
