/**
 What a token does in a head, a table, a select or a frameset, as a function of the stack, the list and the
 tree: the rules with the tokens they make up and the tokens they process again already worked in.
 */
module HtmlRegions {
  import opened Wrappers
  import opened HtmlNames
  import opened HtmlStack
  import opened HtmlFormatting
  import opened HtmlTree
  import opened HtmlState
  import opened HtmlAdoption
  import opened HtmlBody

  // The current node is closed.
  function Closed(s: Snapshot): Snapshot {
    if s.open == [] then s else s.(open := Below(s.open))
  }

  // The cell or caption is closed, with everything in it, and the formatting begun in it forgotten.
  function ClosedRegion(s: Snapshot): Snapshot {
    if Anchor(s.open) < 0 then s else s.(open := s.open[..Anchor(s.open)], active := ToLastMarker(s.active))
  }

  // An element together with a marker, which comes first.
  function MarkedFirst(s: Snapshot, tag: Tag): Snapshot {
    Opened(s.(active := s.active + [Marker(s.next)], next := s.next + 1), tag)
  }

  // The start tag of a part of a table, from any part of a table: what the new part does not go into is
  // closed, and what it has to go into is opened.
  function PartStep(mode: Mode, tag: Tag, s: Snapshot): Snapshot
    requires IsTableMode(mode) && IsTablePart(tag.name)
    decreases Steps(mode, StartTag(tag))
  {
    var n := tag.name;
    if mode.InTable? then
      if n.Caption? then MarkedFirst(s, tag)
      else if n.Colgroup? || IsTableBody(n) then Opened(s, tag)
      else if n.Col? then PartStep(InColumnGroup, tag, Opened(s, Tag(Colgroup, map[])))
      else PartStep(InTableBody, tag, Opened(s, Tag(Tbody, map[])))
    else if mode.InTableBody? then
      if n.Tr? then Opened(s, tag)
      else if IsCell(n) then PartStep(InRow, tag, Opened(s, Tag(Tr, map[])))
      else PartStep(InTable, tag, Closed(s))
    else if mode.InRow? then
      if IsCell(n) then Marked(s, tag) else PartStep(InTableBody, tag, Closed(s))
    else if mode.InColumnGroup? then
      if n.Col? then Voided(s, tag) else PartStep(InTable, tag, Closed(s))
    else if mode.InCaption? then PartStep(InTable, tag, ClosedRegion(s))
    else PartStep(InRow, tag, ClosedRegion(s))
  }

  // The end tag of a table, from any part of it but a column group.
  function TableEndStep(mode: Mode, s: Snapshot): Snapshot
    requires ObeysTableEnd(mode)
  {
    if mode.InTable? then Closed(s)
    else if mode.InTableBody? then Closed(Closed(s))
    else if mode.InRow? then Closed(Closed(Closed(s)))
    else if mode.InCaption? then Closed(ClosedRegion(s))
    else Closed(Closed(Closed(ClosedRegion(s))))
  }

  // Without the select and everything in it.
  function SelectClosed(s: Snapshot): Snapshot {
    var k := Topmost(s.open, {Select});
    if k < 0 then s else s.(open := s.open[..k])
  }

  // Head content after the head goes into the head, which is put back for the purpose and taken off again.
  function LateHeadStep(s: Snapshot, head: Element, tag: Tag): Snapshot {
    var r := HeadStep(s.(open := s.open + [head]), tag);
    var k := IndexOf(r.open, head);
    if k < 0 then r else r.(open := Removed(r.open, k))
  }

  predicate IsNoscriptContent(n: Name) {
    n.Basefont? || n.Bgsound? || n.Link? || n.Meta? || n.Noframes? || n.Style?
  }

  // The mode for the innermost body, cell or caption.
  function FlowMode(open: Stack): Mode {
    if ZoneOf(open).CellZone? then InCell else if ZoneOf(open).CaptionZone? then InCaption else InBody
  }

  // The tokens with an effect in the mode that `RegionStep` gives.
  predicate HasRegionStep(mode: Mode, token: Token, open: Stack) {
    match token
    case StartTag(tag) =>
      var n := tag.name;
      || (mode.BeforeHead? && n.Head?) || (mode.InHead? && IsHeadContent(n)) || (mode.InHeadNoscript? && IsNoscriptContent(n))
      || (mode.AfterHead? && (n.Body? || n.Frameset?)) || (mode.InFrameset? && (n.Frameset? || n.Frame?))
      || (IsTableMode(mode) && IsTablePart(n))
      || (IsSelectMode(mode) && (n.OptionName? || n.Optgroup? || n.Select?))
    case EndTag(tag) =>
      var n := tag.name;
      || (mode.InHead? && n.Head?) || (mode.InHeadNoscript? && n.Noscript?) || (mode.InFrameset? && n.Frameset?)
      || (mode.InCaption? && n.Caption?) || (mode.InColumnGroup? && n.Colgroup?) || (mode.InRow? && n.Tr?)
      || (mode.InTableBody? && IsTableBody(n) && open != [] && n == Top(open).name)
      || (mode.InCell? && IsCell(n) && InScope(open, {n}, TableScope))
      || (ObeysTableEnd(mode) && n.Table?)
      || (IsSelectMode(mode) && (n.OptionName? || n.Optgroup? || n.Select?))
    case _ => false
  }

  function RegionStep(mode: Mode, token: Token, s: Snapshot): Snapshot {
    match token
    case StartTag(tag) =>
      var n := tag.name;
      if IsTableMode(mode) then (if IsTablePart(n) then PartStep(mode, tag, s) else s)
      else if IsSelectMode(mode) then (if n.Select? then SelectClosed(s) else Opened(s.(open := OptionBase(s.open, n)), tag))
      else if mode.InHead? || mode.InHeadNoscript? then HeadStep(s, tag)
      else if n.Frame? then Voided(s, tag)
      else Opened(s, tag)
    case EndTag(tag) =>
      var n := tag.name;
      if n.Table? then (if ObeysTableEnd(mode) then TableEndStep(mode, s) else s)
      else if IsSelectMode(mode) then
        if n.Select? then SelectClosed(s) else s.(open := if n.OptionName? then WithoutOption(s.open) else WithoutOptgroup(s.open))
      else if mode.InCaption? || mode.InCell? then ClosedRegion(s)
      else Closed(s)
    case _ => s
  }

  function RegionMode(mode: Mode, token: Token, s: Snapshot): Mode {
    match token
    case StartTag(tag) =>
      var n := tag.name;
      if IsTableMode(mode) then (if IsTablePart(n) then OpenedBy(n) else mode)
      else if IsSelectMode(mode) then (if n.Select? then FlowMode(SelectClosed(s).open) else mode)
      else if mode.BeforeHead? then InHead
      else if mode.InHead? || mode.InHeadNoscript? then (if IsVoidInHead(n) then mode else Text)
      else if n.Body? then InBody
      else InFrameset
    case EndTag(tag) =>
      var n := tag.name;
      if n.Table? then FlowMode(RegionStep(mode, token, s).open)
      else if IsSelectMode(mode) then (if n.Select? then FlowMode(SelectClosed(s).open) else mode)
      else if mode.InHead? then AfterHead
      else if mode.InHeadNoscript? then InHead
      else if mode.InRow? then InTableBody
      else if mode.InCell? then InRow
      else if mode.InFrameset? then (if Closed(s).open != [] && Top(Closed(s).open).name.Frameset? then InFrameset else AfterFrameset)
      else InTable
    case _ => mode
  }

  /**
   The rules outside a body do what `RegionStep` says; if the token is to be processed again, doing so comes
   to the same.
   */
  ghost predicate RegionEffect(token: Token, out: Outcome, mode0: Mode, s0: Snapshot, mode: Mode, s: Snapshot) {
    HasRegionStep(mode0, token, s0.open) ==>
      match out
      case Done(ignored) =>
        && s == RegionStep(mode0, token, s0) && mode == RegionMode(mode0, token, s0)
        && (ignored ==> IsSelectMode(mode0))
      case Failed(_) => false
      case Reprocess(again) =>
        && again == token && HasRegionStep(mode, token, s.open) && !IsSelectMode(mode)
        && RegionStep(mode, token, s) == RegionStep(mode0, token, s0) && RegionMode(mode, token, s) == RegionMode(mode0, token, s0)
  }

  lemma RegionLater(token: Token, mode0: Mode, s0: Snapshot, again: Token, mode1: Mode, s1: Snapshot, out: Outcome, mode: Mode, s: Snapshot)
    requires RegionEffect(token, Reprocess(again), mode0, s0, mode1, s1) && RegionEffect(again, out, mode1, s1, mode, s)
    requires !out.Reprocess?
    ensures RegionEffect(token, out, mode0, s0, mode, s)
  {
    hide HasRegionStep;
    hide RegionStep;
    hide RegionMode;
  }

  // ---------------------------------------------------------------------------------------------
  // The parts of a table stay in their table

  // The innermost table is the same, with everything below it.
  predicate SameTable(open0: Stack, open: Stack) {
    var k := Topmost(open0, {Table});
    k >= 0 && Topmost(open, {Table}) == k && open[..k + 1] == open0[..k + 1]
  }

  lemma SameTableCut(open: Stack, k: nat)
    requires 0 <= Topmost(open, {Table}) < k <= |open|
    ensures SameTable(open, open[..k])
  {
    TopmostOfPrefix(open, {Table}, k);
    var t := Topmost(open, {Table});
    assert open[..k][..t + 1] == open[..t + 1];
  }

  lemma SameTablePush(open: Stack, e: Element)
    requires 0 <= Topmost(open, {Table}) && !e.name.Table?
    ensures SameTable(open, open + [e])
  {
    var t := Topmost(open, {Table});
    assert Below(open + [e]) == open;
    assert (open + [e])[..t + 1] == open[..t + 1];
  }

  // Where the innermost table is, seen from its parts.
  lemma {:induction false} TablePlace(mode: Mode, open: Stack)
    requires IsTableMode(mode) && ZoneOf(open) == Home(mode)
    ensures 0 <= Topmost(open, {Table}) < |open| && IsFlow(ZoneOf(open[..Topmost(open, {Table})]))
    ensures Topmost(open, {Table}) == TableAt(mode, open)
    decreases if mode.InTable? then 0 else if mode.InTableBody? || mode.InColumnGroup? then 1 else if mode.InCell? then 3 else 2
  {
    hide *;
    ModesOfTables(mode);
    if mode.InTable? {
      TableItself(open);
    } else if mode.InTableBody? || mode.InColumnGroup? || mode.InRow? {
      ZoneBelow(mode, open);
      TablePlace(if mode.InRow? then InTableBody else InTable, Below(open));
      TableBelow(mode, open);
    } else {
      ZoneBelowAnchor(mode, open);
      TablePlace(if mode.InCaption? then InTable else InRow, open[..Anchor(open)]);
      TableBelowAnchor(mode, open);
    }
  }

  function TableAt(mode: Mode, open: Stack): int {
    if mode.InTable? then |open| - 1
    else if mode.InRow? then |open| - 3
    else if mode.InCaption? then Anchor(open) - 1
    else if mode.InCell? then Anchor(open) - 3
    else |open| - 2
  }

  lemma ModesOfTables(mode: Mode)
    requires IsTableMode(mode)
    ensures mode.InTable? || mode.InTableBody? || mode.InColumnGroup? || mode.InRow? || mode.InCaption? || mode.InCell?
    ensures IsTableMode(InTable) && IsTableMode(InTableBody) && IsTableMode(InRow) && IsTableMode(InColumnGroup)
    ensures Home(InTable) == TableZone && Home(InTableBody) == TableBodyZone && Home(InRow) == RowZone && Home(InColumnGroup) == ColgroupZone
  {
  }

  lemma TableItself(open: Stack)
    requires ZoneOf(open) == TableZone
    ensures 0 <= Topmost(open, {Table}) < |open| && Topmost(open, {Table}) == TableAt(InTable, open)
    ensures IsFlow(ZoneOf(open[..Topmost(open, {Table})]))
  {
    TableShape(open);
    hide ZoneOf;
    assert open[..|open| - 1] == Below(open);
    TopInScope(open, Table);
  }

  lemma ZoneBelow(mode: Mode, open: Stack)
    requires (mode.InTableBody? || mode.InColumnGroup? || mode.InRow?) && ZoneOf(open) == Home(mode)
    ensures open != [] && ZoneOf(Below(open)) == (if mode.InRow? then TableBodyZone else TableZone) && !Top(open).name.Table?
  {
  }

  lemma TableBelow(mode: Mode, open: Stack)
    requires mode.InTableBody? || mode.InColumnGroup? || mode.InRow?
    requires open != [] && !Top(open).name.Table? && 0 <= Topmost(Below(open), {Table}) && IsFlow(ZoneOf(Below(open)[..Topmost(Below(open), {Table})]))
    requires Topmost(Below(open), {Table}) == TableAt(if mode.InRow? then InTableBody else InTable, Below(open))
    ensures 0 <= Topmost(open, {Table}) < |open| && Topmost(open, {Table}) == TableAt(mode, open)
    ensures IsFlow(ZoneOf(open[..Topmost(open, {Table})]))
  {
    hide ZoneOf;
    assert Below(open)[..Topmost(Below(open), {Table})] == open[..Topmost(Below(open), {Table})];
  }

  lemma ZoneBelowAnchor(mode: Mode, open: Stack)
    requires (mode.InCaption? || mode.InCell?) && ZoneOf(open) == Home(mode)
    ensures 0 < Anchor(open) < |open| && ZoneOf(open[..Anchor(open)]) == (if mode.InCaption? then TableZone else RowZone)
    ensures !open[Anchor(open)].name.Table? && forall i :: Anchor(open) < i < |open| ==> IsPlain(open[i].name)
  {
    hide *;
    RegionHome(mode);
    BelowAnchor(open);
    CellIsNoTable(open[Anchor(open)].name);
  }

  lemma RegionHome(mode: Mode)
    requires mode.InCaption? || mode.InCell?
    ensures Home(mode) == (if mode.InCaption? then CaptionZone else CellZone) && IsFlow(Home(mode))
  {
  }

  lemma CellIsNoTable(n: Name)
    ensures IsCell(n) ==> !n.Table?
  {
  }

  lemma TableBelowAnchor(mode: Mode, open: Stack)
    requires (mode.InCaption? || mode.InCell?) && 0 < Anchor(open) < |open| && !open[Anchor(open)].name.Table?
    requires forall i :: Anchor(open) < i < |open| ==> IsPlain(open[i].name)
    requires var base := open[..Anchor(open)];
             && 0 <= Topmost(base, {Table}) && IsFlow(ZoneOf(base[..Topmost(base, {Table})]))
             && Topmost(base, {Table}) == TableAt(if mode.InCaption? then InTable else InRow, base)
    ensures 0 <= Topmost(open, {Table}) < |open| && Topmost(open, {Table}) == TableAt(mode, open)
    ensures IsFlow(ZoneOf(open[..Topmost(open, {Table})]))
  {
    hide ZoneOf;
    hide Anchor;
    hide Topmost;
    var a := Anchor(open);
    TopmostAbove(open, a);
    assert open[..a][..Topmost(open[..a], {Table})] == open[..Topmost(open[..a], {Table})];
  }

  lemma {:induction false} TopmostAbove(open: Stack, a: nat)
    requires a < |open| && !open[a].name.Table? && Topmost(open[..a], {Table}) >= 0
    requires forall i :: a < i < |open| ==> IsPlain(open[i].name)
    ensures Topmost(open, {Table}) == Topmost(open[..a], {Table})
    decreases |open|
  {
    hide *;
    if a == |open| - 1 {
      TopmostStep(open);
      assert open[..|open| - 1] == open[..a];
    } else {
      PlainIsNoTable(open[|open| - 1].name);
      TopmostStep(open);
      assert open[..|open| - 1][..a] == open[..a];
      TopmostAbove(open[..|open| - 1], a);
    }
  }

  lemma TopmostStep(open: Stack)
    requires open != [] && !open[|open| - 1].name.Table?
    ensures Topmost(open, {Table}) == Topmost(open[..|open| - 1], {Table})
  {
  }

  lemma PlainIsNoTable(n: Name)
    requires IsPlain(n)
    ensures !n.Table?
  {
  }

  /**
   From wherever in a table its start tag is met, a part of a table goes into the innermost table: the stack
   up to that table is as before, and the stack ends in the new part.
   */
  lemma {:induction false} PartInSameTable(mode: Mode, tag: Tag, s: Snapshot)
    requires IsTableMode(mode) && IsTablePart(tag.name) && ZoneOf(s.open) == Home(mode)
    ensures SameTable(s.open, PartStep(mode, tag, s).open)
    ensures ZoneOf(PartStep(mode, tag, s).open) == Home(OpenedBy(tag.name))
    ensures !tag.name.Col? ==> EndsWith(PartStep(mode, tag, s).open, tag)
    decreases Steps(mode, StartTag(tag))
  {
    hide *;
    PartStepIs(mode, tag, s);
    PartModes(mode, tag);
    TablePlace(mode, s.open);
    if OpensPart(mode, tag.name) {
      PartOpens(mode, tag, s);
    } else {
      NextRegion(mode, tag, s);
      PartInSameTable(ModeTowards(mode, tag.name), tag, Towards(mode, tag.name, s));
      SameTableThen(s.open, Towards(mode, tag.name, s).open, PartStep(mode, tag, s).open);
    }
  }

  // The current node is a new element for the tag.
  predicate EndsWith(open: Stack, tag: Tag) {
    open != [] && Top(open).name == tag.name && Top(open).attributes == tag.attributes
  }

  // The part goes here.
  predicate OpensPart(mode: Mode, n: Name) {
    || (mode.InTable? && (n.Caption? || n.Colgroup? || IsTableBody(n))) || (mode.InTableBody? && n.Tr?)
    || (mode.InRow? && IsCell(n)) || (mode.InColumnGroup? && n.Col?)
  }

  // Otherwise one step is taken towards it.
  function Towards(mode: Mode, n: Name, s: Snapshot): Snapshot {
    if mode.InTable? then Opened(s, Tag(if n.Col? then Colgroup else Tbody, map[]))
    else if mode.InTableBody? && IsCell(n) then Opened(s, Tag(Tr, map[]))
    else if mode.InCaption? || mode.InCell? then ClosedRegion(s)
    else Closed(s)
  }

  function ModeTowards(mode: Mode, n: Name): Mode {
    if mode.InTable? then (if n.Col? then InColumnGroup else InTableBody)
    else if mode.InTableBody? then (if IsCell(n) then InRow else InTable)
    else if mode.InRow? then InTableBody
    else if mode.InCell? then InRow
    else InTable
  }

  lemma PartStepIs(mode: Mode, tag: Tag, s: Snapshot)
    requires IsTableMode(mode) && IsTablePart(tag.name)
    ensures OpensPart(mode, tag.name) ==>
              PartStep(mode, tag, s) == if mode.InColumnGroup? then Voided(s, tag)
                                        else if mode.InRow? then Marked(s, tag)
                                        else if tag.name.Caption? then MarkedFirst(s, tag)
                                        else Opened(s, tag)
    ensures !OpensPart(mode, tag.name) ==>
              && IsTableMode(ModeTowards(mode, tag.name)) && Steps(ModeTowards(mode, tag.name), StartTag(tag)) < Steps(mode, StartTag(tag))
              && PartStep(mode, tag, s) == PartStep(ModeTowards(mode, tag.name), tag, Towards(mode, tag.name, s))
  {
    hide Opened;
    hide Marked;
    hide MarkedFirst;
    hide Voided;
    hide Closed;
    hide ClosedRegion;
  }

  lemma PartModes(mode: Mode, tag: Tag)
    requires IsTableMode(mode) && IsTablePart(tag.name)
    ensures OpensPart(mode, tag.name) ==> mode.InTable? || mode.InTableBody? || mode.InRow? || mode.InColumnGroup?
  {
  }

  lemma PartOpens(mode: Mode, tag: Tag, s: Snapshot)
    requires IsTableMode(mode) && IsTablePart(tag.name) && ZoneOf(s.open) == Home(mode) && OpensPart(mode, tag.name)
    requires 0 <= Topmost(s.open, {Table}) < |s.open|
    ensures var r := if mode.InColumnGroup? then Voided(s, tag) else if mode.InRow? then Marked(s, tag)
                     else if tag.name.Caption? then MarkedFirst(s, tag) else Opened(s, tag);
            && SameTable(s.open, r.open) && ZoneOf(r.open) == Home(OpenedBy(tag.name)) && (!tag.name.Col? ==> EndsWith(r.open, tag))
  {
    hide *;
    PartStacks(s, tag);
    PartIsNoTable(mode, tag.name);
    if mode.InColumnGroup? {
      SameTableCut(s.open, |s.open|);
      assert s.open[..|s.open|] == s.open;
    } else {
      var e := NewElement(if tag.name.Caption? then s.next + 1 else s.next, tag);
      PartZones(mode, tag.name, s.open, e);
      SameTablePush(s.open, e);
      EndsWithNew(s.open, e, tag);
    }
  }

  lemma PartStacks(s: Snapshot, tag: Tag)
    ensures Voided(s, tag).open == s.open
    ensures Marked(s, tag).open == Opened(s, tag).open == s.open + [NewElement(s.next, tag)]
    ensures MarkedFirst(s, tag).open == s.open + [NewElement(s.next + 1, tag)]
    ensures forall id :: NewElement(id, tag).name == tag.name && NewElement(id, tag).attributes == tag.attributes
  {
  }

  lemma PartIsNoTable(mode: Mode, n: Name)
    requires IsTableMode(mode) && IsTablePart(n) && OpensPart(mode, n)
    ensures !n.Table? && (mode.InColumnGroup? ==> n.Col? && OpenedBy(n) == InColumnGroup) && (mode.InRow? ==> !n.Caption?) && !OpenedBy(n).Text?
    ensures !OpenedBy(n).InTableText? && (n.Col? ==> mode.InColumnGroup?)
  {
  }

  lemma PartZones(mode: Mode, n: Name, open: Stack, e: Element)
    requires IsTableMode(mode) && IsTablePart(n) && OpensPart(mode, n) && !mode.InColumnGroup? && e.name == n
    requires ZoneOf(open) == Home(mode)
    ensures ZoneOf(open + [e]) == Home(OpenedBy(n))
  {
    ZonePush(open, e);
    hide ZoneOf;
  }

  lemma EndsWithNew(open: Stack, e: Element, tag: Tag)
    requires e.name == tag.name && e.attributes == tag.attributes
    ensures EndsWith(open + [e], tag)
  {
  }

  lemma NextRegion(mode: Mode, tag: Tag, s: Snapshot)
    requires IsTableMode(mode) && IsTablePart(tag.name) && ZoneOf(s.open) == Home(mode) && !OpensPart(mode, tag.name)
    requires 0 <= Topmost(s.open, {Table}) < |s.open| && Topmost(s.open, {Table}) == TableAt(mode, s.open)
    ensures SameTable(s.open, Towards(mode, tag.name, s).open)
    ensures !ModeTowards(mode, tag.name).Text? && !ModeTowards(mode, tag.name).InTableText?
    ensures ZoneOf(Towards(mode, tag.name, s).open) == Home(ModeTowards(mode, tag.name))
  {
    hide *;
    ModesOfTables(mode);
    TowardsIs(mode, tag.name, s);
    TableAtIs(mode, s.open);
    if mode.InTable? || (mode.InTableBody? && IsCell(tag.name)) {
      var e := NewElement(s.next, Tag(if mode.InTableBody? then Tr else if tag.name.Col? then Colgroup else Tbody, map[]));
      ZoneOpens(s.open, e);
      SameTablePush(s.open, e);
    } else if mode.InCaption? || mode.InCell? {
      ZoneBelowAnchor(mode, s.open);
      SameTableCut(s.open, Anchor(s.open));
    } else {
      ZoneBelow(mode, s.open);
      SameTableCut(s.open, |s.open| - 1);
    }
  }

  lemma TableAtIs(mode: Mode, open: Stack)
    ensures TableAt(mode, open) ==
            if mode.InTable? then |open| - 1 else if mode.InRow? then |open| - 3 else if mode.InCaption? then Anchor(open) - 1
            else if mode.InCell? then Anchor(open) - 3 else |open| - 2
  {
  }

  lemma TowardsIs(mode: Mode, n: Name, s: Snapshot)
    requires IsTableMode(mode) && IsTablePart(n)
    ensures var e := NewElement(s.next, Tag(if mode.InTableBody? then Tr else if n.Col? then Colgroup else Tbody, map[]));
            && (mode.InTable? || (mode.InTableBody? && IsCell(n)) ==> Towards(mode, n, s).open == s.open + [e])
            && e.name == (if mode.InTableBody? then Tr else if n.Col? then Colgroup else Tbody)
    ensures (mode.InCaption? || mode.InCell?) && Anchor(s.open) >= 0 ==> Towards(mode, n, s).open == s.open[..Anchor(s.open)]
    ensures (mode.InTableBody? && !IsCell(n)) || mode.InRow? || mode.InColumnGroup? ==>
              s.open != [] ==> Towards(mode, n, s).open == s.open[..|s.open| - 1] == Below(s.open)
    ensures ModeTowards(mode, n) ==
            if mode.InTable? then (if n.Col? then InColumnGroup else InTableBody)
            else if mode.InTableBody? then (if IsCell(n) then InRow else InTable)
            else if mode.InRow? then InTableBody
            else if mode.InCell? then InRow
            else InTable
  {
    hide Anchor;
  }

  lemma ZoneOpens(open: Stack, e: Element)
    ensures ZoneOf(open) == TableZone && e.name.Colgroup? ==> ZoneOf(open + [e]) == ColgroupZone
    ensures ZoneOf(open) == TableZone && e.name.Tbody? ==> ZoneOf(open + [e]) == TableBodyZone
    ensures ZoneOf(open) == TableBodyZone && e.name.Tr? ==> ZoneOf(open + [e]) == RowZone
  {
    ZonePush(open, e);
  }

  lemma SameTableThen(a: Stack, b: Stack, c: Stack)
    requires SameTable(a, b) && SameTable(b, c)
    ensures SameTable(a, c)
  {
  }

  /** From wherever in a table its end tag is met, it closes exactly the innermost table, with everything in it. */
  lemma TableEndCloses(mode: Mode, s: Snapshot)
    requires ObeysTableEnd(mode) && ZoneOf(s.open) == Home(mode)
    ensures 0 <= Topmost(s.open, {Table}) && TableEndStep(mode, s).open == s.open[..Topmost(s.open, {Table})]
    ensures IsFlow(ZoneOf(TableEndStep(mode, s).open))
  {
    hide ZoneOf;
    hide Anchor;
    hide Topmost;
    TablePlace(mode, s.open);
    var t := Topmost(s.open, {Table});
    if mode.InCaption? || mode.InCell? {
      var base := s.open[..Anchor(s.open)];
      assert base[..t] == s.open[..t];
      assert mode.InCell? ==> Below(Below(Below(base))) == s.open[..t];
    } else if mode.InRow? {
      assert Below(Below(Below(s.open))) == s.open[..t];
    } else if mode.InTableBody? {
      assert Below(Below(s.open)) == s.open[..t];
    }
  }
}
