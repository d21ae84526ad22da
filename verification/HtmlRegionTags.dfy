/**
 What tokens come to in a head, a table, a select and a frameset, said of the stack, the list and the mode
 alone.
 */
module HtmlRegionTags {
  import opened Wrappers
  import opened HtmlNames
  import opened HtmlStack
  import opened HtmlFormatting
  import opened HtmlTree
  import opened HtmlState
  import opened HtmlAdoption
  import opened HtmlBody
  import opened HtmlRegions
  import opened HtmlEndTags
  import opened HtmlStartTags

  // The mode has a step for the token, which leads to this mode and this state.
  predicate Leads(mode: Mode, token: Token, s: Snapshot, later: Mode, r: Snapshot) {
    HasRegionStep(mode, token, s.open) && RegionMode(mode, token, s) == later && RegionStep(mode, token, s) == r
  }

  // The same for an element that is opened, put below the current node, or closed with all above it.
  predicate LeadsToOpen(mode: Mode, tag: Tag, s: Snapshot, later: Mode) {
    Leads(mode, StartTag(tag), s, later, Opened(s, tag)) && OpensOn(s, s.open, tag, Opened(s, tag))
  }

  predicate LeadsToPut(mode: Mode, tag: Tag, s: Snapshot, later: Mode) {
    Leads(mode, StartTag(tag), s, later, Voided(s, tag)) && PutsOn(s, s.open, tag, Voided(s, tag))
  }

  // ---------------------------------------------------------------------------------------------
  // Head and frameset

  /** Head content without contents leaves stack and mode as they are; what holds text is opened as text. */
  lemma ContentOfHead(tag: Tag, s: Snapshot)
    requires s.open != []
    ensures tag.name in {Base, Basefont, Bgsound, Link, Meta} ==> LeadsToPut(InHead, tag, s, InHead)
    ensures tag.name in {Noframes, Script, Style, Title} ==> LeadsToOpen(InHead, tag, s, Text)
    ensures tag.name in {Basefont, Bgsound, Link, Meta} ==> LeadsToPut(InHeadNoscript, tag, s, InHeadNoscript)
    ensures tag.name in {Noframes, Style} ==> LeadsToOpen(InHeadNoscript, tag, s, Text)
  {
    OpenedOn(s, s.open, tag);
    hide Opened;
    hide Voided;
    hide OpensOn;
    hide PutsOn;
    hide PartStep;
    hide IsTablePart;
    assert s.(open := s.open) == s;
  }

  /** Where a head, a body and the framesets begin. */
  lemma StartOfHead(tag: Tag, s: Snapshot)
    requires s.open != []
    ensures tag.name == Head ==> LeadsToOpen(BeforeHead, tag, s, InHead)
    ensures tag.name == Body ==> LeadsToOpen(AfterHead, tag, s, InBody)
    ensures tag.name == Frameset ==> LeadsToOpen(AfterHead, tag, s, InFrameset) && LeadsToOpen(InFrameset, tag, s, InFrameset)
    ensures tag.name == Frame ==> LeadsToPut(InFrameset, tag, s, InFrameset)
  {
    OpenedOn(s, s.open, tag);
    hide Opened;
    hide Voided;
    hide OpensOn;
    hide PutsOn;
    hide PartStep;
    hide IsTablePart;
    assert s.(open := s.open) == s;
  }

  /** Where they end. */
  lemma EndOfHead(tag: Tag, s: Snapshot)
    requires |s.open| > 1
    ensures var r := s.(open := s.open[..|s.open| - 1]);
            && (tag.name == Head ==> Leads(InHead, EndTag(tag), s, AfterHead, r))
            && (tag.name == Noscript ==> Leads(InHeadNoscript, EndTag(tag), s, InHead, r))
            && (tag.name == Frameset ==>
                  Leads(InFrameset, EndTag(tag), s, if s.open[|s.open| - 2].name == Frameset then InFrameset else AfterFrameset, r))
  {
    hide PartStep;
    hide TableEndStep;
  }

  /** Head content after the head goes into the head, which is not open afterwards. */
  lemma LateContentOfHead(tag: Tag, s: Snapshot, head: Element)
    requires head !in s.open && head.id < s.next && s.open != []
    ensures var r := LateHeadStep(s, head, tag);
            var e := Element(s.next, tag.name, tag.attributes);
            && r.active == s.active && r.next == s.next + 1 && r.tree == Grown(s.tree, head.id, s.next, ElementNode(e))
            && (tag.name in {Base, Basefont, Bgsound, Link, Meta} ==> r.open == s.open)
            && (tag.name in {Noframes, Script, Style, Title} ==> r.open == s.open + [e])
  {
    hide Grown;
    var e := Element(s.next, tag.name, tag.attributes);
    FirstPlace(s.open + [head], head, |s.open|);
    FirstPlace(s.open + [head] + [e], head, |s.open|);
    assert (s.open + [head])[..|s.open|] == s.open;
    assert (s.open + [head] + [e])[..|s.open|] == s.open;
    assert Removed(s.open + [head], |s.open|) == s.open;
    assert Removed(s.open + [head] + [e], |s.open|) == s.open + [e];
    hide IndexOf;
    hide Removed;
  }

  // ---------------------------------------------------------------------------------------------
  // Tables

  // The list up to its last marker.
  function BeforeMarker(active: Entries): Entries {
    if LastMarker(active) < 0 then active else active[..LastMarker(active)]
  }

  lemma TopmostCell(open: Stack, c: nat, names: set<Name>)
    requires (ZoneOf(open) == CellZone && names == {Td, Th}) || (ZoneOf(open) == CaptionZone && names == {Caption})
    requires c < |open| && open[c].name in names && forall i :: c < i < |open| ==> open[i].name !in names
    ensures Anchor(open) == c
  {
    AnchorOfFlow(open);
    hide ZoneOf;
    hide Anchor;
  }

  /** The end tag of the open cell or of the caption closes it, with all in it, and forgets the formatting begun in it. */
  lemma EndOfCell(tag: Tag, s: Snapshot, c: nat)
    requires c < |s.open|
    ensures tag.name in {Td, Th} && ZoneOf(s.open) == CellZone && s.open[c].name == tag.name && (forall i :: c < i < |s.open| ==> s.open[i].name !in {Td, Th, Html, Table}) ==>
              Leads(InCell, EndTag(tag), s, InRow, s.(open := s.open[..c], active := BeforeMarker(s.active)))
    ensures tag.name == Caption && ZoneOf(s.open) == CaptionZone && s.open[c].name == Caption && (forall i :: c < i < |s.open| ==> s.open[i].name != Caption) ==>
              Leads(InCaption, EndTag(tag), s, InTable, s.(open := s.open[..c], active := BeforeMarker(s.active)))
  {
    hide *;
    if tag.name in {Td, Th} && ZoneOf(s.open) == CellZone && s.open[c].name == tag.name && (forall i :: c < i < |s.open| ==> s.open[i].name !in {Td, Th, Html, Table}) {
      TopmostCell(s.open, c, {Td, Th});
      ScopeAt(s.open, {tag.name}, TableScope);
      CellIsInScope(s.open, c, tag.name);
      CellLeads(tag, s, c);
    }
    if tag.name == Caption && ZoneOf(s.open) == CaptionZone && s.open[c].name == Caption && (forall i :: c < i < |s.open| ==> s.open[i].name != Caption) {
      TopmostCell(s.open, c, {Caption});
      CellLeads(tag, s, c);
    }
  }

  lemma CellIsInScope(open: Stack, c: nat, n: Name)
    requires n in {Td, Th} && c < |open| && open[c].name == n && forall i :: c < i < |open| ==> open[i].name !in {Td, Th, Html, Table}
    ensures InScopeAt(open, c, {n}, TableScope)
  {
  }

  lemma CellLeads(tag: Tag, s: Snapshot, c: nat)
    requires Anchor(s.open) == c < |s.open|
    ensures tag.name in {Td, Th} && InScope(s.open, {tag.name}, TableScope) ==>
              Leads(InCell, EndTag(tag), s, InRow, s.(open := s.open[..c], active := BeforeMarker(s.active)))
    ensures tag.name == Caption ==> Leads(InCaption, EndTag(tag), s, InTable, s.(open := s.open[..c], active := BeforeMarker(s.active)))
  {
    hide Anchor;
    hide LastMarker;
    hide InScope;
    hide TableEndStep;
    hide PartStep;
  }

  /** The end tags of a row, a table body and a column group close what is the current node. */
  lemma EndOfRow(tag: Tag, s: Snapshot)
    requires s.open != []
    ensures var r := s.(open := s.open[..|s.open| - 1]);
            && (tag.name == Tr ==> Leads(InRow, EndTag(tag), s, InTableBody, r))
            && (tag.name in {Tbody, Tfoot, Thead} && s.open[|s.open| - 1].name == tag.name ==> Leads(InTableBody, EndTag(tag), s, InTable, r))
            && (tag.name == Colgroup ==> Leads(InColumnGroup, EndTag(tag), s, InTable, r))
  {
    hide PartStep;
    hide TableEndStep;
  }

  /**
   The list, when a part of a table begins: what was begun in an open cell or caption is forgotten, and a new cell
   or caption has a marker after the rest.
   */
  lemma {:induction false} ListOfPart(mode: Mode, tag: Tag, s: Snapshot)
    requires mode in {InTable, InTableBody, InRow, InColumnGroup, InCell, InCaption}
    requires tag.name in {Caption, Col, Colgroup, Tbody, Td, Tfoot, Th, Thead, Tr} && Anchor(s.open) >= 0
    ensures IsTableMode(mode) && IsTablePart(tag.name)
    ensures var rest := if mode in {InCell, InCaption} then BeforeMarker(s.active) else s.active;
            var r := PartStep(mode, tag, s);
            if tag.name in {Td, Th, Caption} then |r.active| == |rest| + 1 && r.active[..|rest|] == rest && r.active[|rest|].Marker?
            else r.active == rest
    decreases if mode in {InCell, InCaption} then 1 else 0
  {
    hide *;
    PartNames(mode, tag.name);
    if mode == InCell || mode == InCaption {
      var r := s.(open := s.open[..Anchor(s.open)], active := BeforeMarker(s.active));
      RegionLeft(mode, tag, s);
      ListInTable(if mode == InCaption then InTable else InRow, tag, r);
    } else {
      ListInTable(mode, tag, s);
    }
  }

  lemma PartNames(mode: Mode, n: Name)
    requires mode in {InTable, InTableBody, InRow, InColumnGroup, InCell, InCaption}
    requires n in {Caption, Col, Colgroup, Tbody, Td, Tfoot, Th, Thead, Tr}
    ensures IsTableMode(mode) && IsTablePart(n)
  {
  }

  lemma RegionLeft(mode: Mode, tag: Tag, s: Snapshot)
    requires mode in {InCell, InCaption} && IsTableMode(mode) && IsTablePart(tag.name) && Anchor(s.open) >= 0
    ensures IsTableMode(if mode == InCaption then InTable else InRow)
    ensures PartStep(mode, tag, s) ==
            PartStep(if mode == InCaption then InTable else InRow, tag, s.(open := s.open[..Anchor(s.open)], active := BeforeMarker(s.active)))
  {
    PartStepIs(mode, tag, s);
    hide PartStep;
    hide LastMarker;
    hide Anchor;
  }

  lemma {:induction false} ListInTable(mode: Mode, tag: Tag, s: Snapshot)
    requires mode in {InTable, InTableBody, InRow, InColumnGroup} && IsTableMode(mode) && IsTablePart(tag.name)
    ensures var r := PartStep(mode, tag, s);
            if tag.name in {Td, Th, Caption} then |r.active| == |s.active| + 1 && r.active[..|s.active|] == s.active && r.active[|s.active|].Marker?
            else r.active == s.active
    decreases Steps(mode, StartTag(tag))
  {
    hide *;
    PartStepIs(mode, tag, s);
    ListsOfSteps(mode, tag, s);
    if !OpensPart(mode, tag.name) {
      ListInTable(ModeTowards(mode, tag.name), tag, Towards(mode, tag.name, s));
    }
  }

  lemma ListsOfSteps(mode: Mode, tag: Tag, s: Snapshot)
    requires mode in {InTable, InTableBody, InRow, InColumnGroup}
    ensures Voided(s, tag).active == Opened(s, tag).active == s.active
    ensures var r := Marked(s, tag).active; |r| == |s.active| + 1 && r[..|s.active|] == s.active && r[|s.active|].Marker?
    ensures var r := MarkedFirst(s, tag).active; |r| == |s.active| + 1 && r[..|s.active|] == s.active && r[|s.active|].Marker?
    ensures Towards(mode, tag.name, s).active == s.active
    ensures IsTablePart(tag.name) && IsTableMode(mode) ==> ModeTowards(mode, tag.name) in {InTable, InTableBody, InRow, InColumnGroup}
    ensures IsTablePart(tag.name) && OpensPart(mode, tag.name) ==>
              && (mode == InRow <==> tag.name in {Td, Th}) && (mode == InColumnGroup <==> tag.name == Col)
  {
    hide Grown;
    hide Anchor;
    hide LastMarker;
  }

  // ---------------------------------------------------------------------------------------------
  // Selects

  /** An option goes below a group or the select, a group below the select: what is on top and in the way is closed. */
  lemma StartOfOptionInSelect(mode: Mode, tag: Tag, s: Snapshot)
    requires mode in {InSelect, InSelectInTable} && tag.name in {OptionName, Optgroup} && |s.open| > 2
    ensures var last := |s.open| - 1;
            var base := if s.open[last].name == OptionName then s.open[..last] else s.open;
            var rest := if tag.name == Optgroup && base[|base| - 1].name == Optgroup then base[..|base| - 1] else base;
            && Leads(mode, StartTag(tag), s, mode, Opened(s.(open := rest), tag))
            && OpensOn(s, rest, tag, Opened(s.(open := rest), tag))
  {
    hide *;
    OptionBaseIs(s.open, tag.name);
    OptionLeads(mode, tag, s);
    OpenedOn(s, OptionBase(s.open, tag.name), tag);
  }

  lemma OptionBaseIs(open: Stack, n: Name)
    requires n in {OptionName, Optgroup} && |open| > 2
    ensures var last := |open| - 1;
            var base := if open[last].name == OptionName then open[..last] else open;
            OptionBase(open, n) == if n == Optgroup && base[|base| - 1].name == Optgroup then base[..|base| - 1] else base
  {
  }

  lemma OptionLeads(mode: Mode, tag: Tag, s: Snapshot)
    requires mode in {InSelect, InSelectInTable} && tag.name in {OptionName, Optgroup}
    ensures Leads(mode, StartTag(tag), s, mode, Opened(s.(open := OptionBase(s.open, tag.name)), tag))
  {
    hide Opened;
    hide OptionBase;
  }

  /** The end tag of an option closes an option on top; that of a group a group on top, and the option in it before. */
  lemma EndOfOptionInSelect(mode: Mode, tag: Tag, s: Snapshot)
    requires mode in {InSelect, InSelectInTable} && |s.open| > 2
    ensures var top, under := s.open[|s.open| - 1].name, s.open[|s.open| - 2].name;
            && (tag.name == OptionName ==>
                  Leads(mode, EndTag(tag), s, mode, if top == OptionName then s.(open := s.open[..|s.open| - 1]) else s))
            && (tag.name == Optgroup ==>
                  Leads(mode, EndTag(tag), s, mode,
                        if top == Optgroup then s.(open := s.open[..|s.open| - 1])
                        else if top == OptionName && under == Optgroup then s.(open := s.open[..|s.open| - 2])
                        else s))
  {
    assert s.(open := s.open) == s;
    assert Below(Below(s.open)) == s.open[..|s.open| - 2];
    hide TableEndStep;
  }

  /** The end tag of a select, and a select in it, closes the innermost select with all in it. */
  lemma EndOfSelect(mode: Mode, token: Token, s: Snapshot, k: nat)
    requires mode in {InSelect, InSelectInTable} && (token.StartTag? || token.EndTag?) && token.tag.name == Select
    requires k < |s.open| && s.open[k].name == Select && forall i :: k < i < |s.open| ==> s.open[i].name != Select
    ensures Leads(mode, token, s, FlowMode(s.open[..k]), s.(open := s.open[..k]))
  {
    TopmostIs(s.open, {Select}, k);
    hide Topmost;
    hide FlowMode;
    hide TableEndStep;
  }

  /** The mode that a closed table or select goes back to is that of the innermost body, cell or caption. */
  lemma ModeOfFlow(open: Stack)
    requires ZoneOf(open) in {BodyZone, CellZone, CaptionZone}
    ensures ZoneOf(open) == Home(FlowMode(open)) && FlowMode(open) in {InBody, InCell, InCaption}
  {
    hide ZoneOf;
  }
}
