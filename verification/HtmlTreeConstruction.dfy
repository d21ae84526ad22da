/**
 Tree construction: the state machine that turns tokens into a tree.

 The methods follow the functions of the program.  The tree is a map that they reassign; `rank` is the
 proof's record that the tree has no cycle and the stack goes down it.
 */
module HtmlTreeConstruction {
  import opened Wrappers
  import opened HtmlNames
  import opened HtmlStack
  import opened HtmlFormatting
  import opened HtmlTree
  import opened HtmlState
  import opened HtmlAdoption
  import opened HtmlBody
  import opened HtmlRegions

  class TreeConstruction {
    var open: Stack
    var active: Entries
    var mode: Mode
    var originalMode: Mode
    var headElement: Option<Element>
    var formElement: Option<FormElement>
    const scriptingFlag: bool
    var framesetOk: bool
    var ignoreLineFeed: bool
    var pendingTableCharacters: seq<char>
    var quirks: bool
    const isIframe: bool
    var tree: Tree
    var nextId: NodeId
    ghost var rank: map<NodeId, real>

    constructor (isIframe: bool)
      ensures mode.Initial? && Running(mode, originalMode, open, active, headElement, tree, rank, nextId)
      ensures open == [] && active == [] && tree == map[DOCUMENT := Node(DocumentNode, None, [])]
      ensures headElement == None && formElement == None && framesetOk && !quirks && !scriptingFlag && this.isIframe == isIframe
    {
      this.isIframe := isIframe;
      scriptingFlag := false;
      open, active := [], [];
      mode, originalMode := Initial, Initial;
      headElement, formElement := None, None;
      framesetOk, ignoreLineFeed, quirks := true, false, false;
      pendingTableCharacters := [];
      tree := map[DOCUMENT := Node(DocumentNode, None, [])];
      nextId := 1;
      rank := map[DOCUMENT := 0.0];
    }

    // ---------------------------------------------------------------------------------------------
    // Nodes

    method CreateAnElement(tag: Tag) returns (e: Element)
      modifies `tree, `nextId
      ensures e == NewElement(old(nextId), tag) && nextId == old(nextId) + 1
      ensures tree == Created(old(tree), e.id, ElementNode(e)) && tree.Keys == old(tree).Keys + {e.id}
    {
      e := Element(nextId, tag.name, tag.attributes);
      tree := tree[e.id := Node(ElementNode(e), None, [])];
      nextId := nextId + 1;
    }

    method InsertAnElement(tag: Tag) returns (e: Element)
      requires Grounded(open, active, tree, rank, nextId) && open != []
      modifies `open, `tree, `rank, `nextId
      ensures e == NewElement(old(nextId), tag) && e.id == old(nextId) && nextId == old(nextId) + 1
      ensures open == old(open) + [e]
      ensures Top(old(open)).id in old(tree) && tree == Grown(old(tree), Top(old(open)).id, e.id, ElementNode(e))
      ensures Snapshot(open, active, tree, nextId) == Opened(old(Snapshot(open, active, tree, nextId)), tag)
      ensures Grounded(open, active, tree, rank, nextId)
      ensures Balanced(old(open), active) && !TakesMarker(tag.name) ==> Balanced(open, active)
      ensures Top(old(open)).id in old(rank) && rank == old(rank)[e.id := old(rank)[Top(old(open)).id] + 1.0]
    {
      hide *;
      ghost var top := Top(open).id;
      InsertedElement(open, active, tree, rank, nextId, tag);
      rank := rank[nextId := rank[top] + 1.0];
      e := CreateAnElement(tag);
      tree := Appended(tree, Top(open).id, e.id);
      open := open + [e];
    }

    static lemma InsertedElement(open: Stack, active: Entries, t: Tree, rank: map<NodeId, real>, next: NodeId, tag: Tag)
      requires Grounded(open, active, t, rank, next) && open != []
      ensures var e, top := NewElement(next, tag), Top(open).id;
              && e.id == next && top in t && top in rank && next !in t
              && Grown(t, top, next, ElementNode(e)) == Appended(Created(t, next, ElementNode(e)), top, next)
              && Opened(Snapshot(open, active, t, next), tag) == Snapshot(open + [e], active, Grown(t, top, next, ElementNode(e)), next + 1)
              && Grounded(open + [e], active, Grown(t, top, next, ElementNode(e)), rank[next := rank[top] + 1.0], next + 1)
              && (Balanced(open, active) && !TakesMarker(tag.name) ==> Balanced(open + [e], active))
    {
      var e := NewElement(next, tag);
      GroundedPush(open, active, t, rank, next, tag);
      NewIsUnknown(open, active, t, rank, next, e);
      if Balanced(open, active) && !TakesMarker(tag.name) {
        SoundPush(open, active, t, rank, next, tag);
      }
      hide Grounded;
      hide Balanced;
      hide Reaches;
    }

    // A comment, a doctype or the like: a node that is not pushed onto the stack.
    method AppendNode(place: NodeId, content: Content)
      requires Sound(open, active, tree, rank, nextId) && place in tree
      modifies `tree, `rank, `nextId
      ensures Sound(open, active, tree, rank, nextId) && nextId == old(nextId) + 1
      ensures place in old(tree) && old(nextId) !in old(tree) && tree == Grown(old(tree), place, old(nextId), content)
      ensures HeadKept(headElement, open, old(tree), old(rank)) ==> HeadKept(headElement, open, tree, rank)
    {
      hide *;
      LeafKept(open, active, tree, rank, nextId, place, content, headElement);
      rank := rank[nextId := rank[place] + 1.0];
      tree := Appended(Created(tree, nextId, content), place, nextId);
      nextId := nextId + 1;
    }

    static lemma LeafKept(open: Stack, active: Entries, t: Tree, rank: map<NodeId, real>, next: NodeId, place: NodeId, content: Content, head: Option<Element>)
      requires Sound(open, active, t, rank, next) && place in t
      ensures place in rank && next !in t && next in Created(t, next, content) && place in Created(t, next, content)
      ensures Appended(Created(t, next, content), place, next) == Grown(t, place, next, content)
      ensures Sound(open, active, Grown(t, place, next, content), rank[next := rank[place] + 1.0], next + 1)
      ensures HeadKept(head, open, t, rank) ==> HeadKept(head, open, Grown(t, place, next, content), rank[next := rank[place] + 1.0])
    {
      GroundedLeaf(open, active, t, rank, next, place, content);
      GrownKeeps(t, rank, place, next, content);
      hide Balanced;
      hide Reaches;
      hide Lineage;
    }

    // A character joins the text at the end of the current node, or begins one there.
    method InsertCharacter(data: char)
      requires Sound(open, active, tree, rank, nextId) && open != []
      modifies `tree, `rank, `nextId
      ensures Sound(open, active, tree, rank, nextId)
      ensures Snapshot(open, active, tree, nextId) == Typed(old(Snapshot(open, active, tree, nextId)), data)
      ensures Top(open).id in old(tree) && tree == WithText(old(tree), Top(open).id, old(nextId), data)
      ensures HeadKept(headElement, open, old(tree), old(rank)) ==> HeadKept(headElement, open, tree, rank)
    {
      hide *;
      var place := Top(open).id;
      TopInTree(open, active, tree, rank, nextId);
      TypedIs(open, active, tree, nextId, data);
      ghost var was := tree;
      if !EndsInText(tree, place) {
        AppendNode(place, TextNode(""));
        TextBegun(was, place, nextId - 1, data);
      } else {
        TextJoined(was, place, nextId, data);
      }
      var last := tree[place].children[|tree[place].children| - 1];
      TextKept(open, active, tree, rank, nextId, last, tree[last].content.data + [data], headElement);
      tree := tree[last := tree[last].(content := TextNode(tree[last].content.data + [data]))];
    }

    static lemma TypedIs(open: Stack, active: Entries, t: Tree, next: NodeId, data: char)
      requires open != []
      ensures var place := Top(open).id;
              Typed(Snapshot(open, active, t, next), data) ==
              Snapshot(open, active, WithText(t, place, next, data), if EndsInText(t, place) then next else next + 1)
    {
    }

    static lemma TopIs(open: Stack)
      requires open != []
      ensures Top(open) == open[|open| - 1]
    {
    }

    static lemma TopInTree(open: Stack, active: Entries, t: Tree, rank: map<NodeId, real>, next: NodeId)
      requires Sound(open, active, t, rank, next) && open != []
      ensures Top(open).id in t && Top(open).id in rank
    {
    }

    static lemma NewPlace(open: Stack, active: Entries, t: Tree, rank: map<NodeId, real>, next: NodeId, data: char)
      requires Sound(open, active, t, rank, next) && open != []
      ensures var place := Top(open).id;
              place in t && place in WithText(t, place, next, data) && TextAt(WithText(t, place, next, data), place) == TextAt(t, place) + [data]
    {
      hide TextAt;
      hide WithText;
      TopInTree(open, active, t, rank, next);
      assert next !in t;
      TextGrows(t, Top(open).id, next, data);
    }

    static lemma TextBegun(t: Tree, place: NodeId, id: NodeId, data: char)
      requires place in t && id !in t && !EndsInText(t, place)
      ensures var u := Grown(t, place, id, TextNode(""));
              && place in u && u[place].children != [] && u[place].children[|u[place].children| - 1] == id && id in u
              && u[id].content == TextNode("") && u[id := u[id].(content := TextNode("" + [data]))] == WithText(t, place, id, data)
    {
      var u := Grown(t, place, id, TextNode(""));
      assert "" + [data] == [data];
      assert u[id := u[id].(content := TextNode([data]))] == Grown(t, place, id, TextNode([data]));
    }

    static lemma TextJoined(t: Tree, place: NodeId, id: NodeId, data: char)
      requires EndsInText(t, place)
      ensures place in t && t[place].children != []
      ensures var last := t[place].children[|t[place].children| - 1];
              last in t && t[last].content.TextNode?
              && t[last := t[last].(content := TextNode(t[last].content.data + [data]))] == WithText(t, place, id, data)
    {
    }

    static lemma TextKept(open: Stack, active: Entries, t: Tree, rank: map<NodeId, real>, next: NodeId, x: NodeId, data: string, head: Option<Element>)
      requires Sound(open, active, t, rank, next) && x in t && t[x].content.TextNode?
      ensures Sound(open, active, t[x := t[x].(content := TextNode(data))], rank, next)
      ensures HeadKept(head, open, t, rank) ==> HeadKept(head, open, t[x := t[x].(content := TextNode(data))], rank)
    {
      SoundText(open, active, t, rank, next, x, data);
      LineageText(t, rank, open, x, data);
      hide Sound;
      hide Lineage;
      hide Reaches;
    }

    // ---------------------------------------------------------------------------------------------
    // The stack of open elements

    method PopCurrentNode()
      requires open != []
      modifies `open
      ensures open == old(open)[..|old(open)| - 1]
    {
      open := open[..|open| - 1];
    }

    method GenerateImpliedEndTags(spared: set<Name>)
      requires ImpliedCut(open, spared) > 0
      modifies `open
      ensures open == old(open)[..ImpliedCut(old(open), spared)]
    {
      ghost var was := open;
      ghost var k := ImpliedCut(open, spared);
      while HasImpliedEnd(open[|open| - 1].name) && open[|open| - 1].name !in spared
        invariant 0 < k <= |open| <= |was| && open == was[..|open|]
        decreases |open|
      {
        PopCurrentNode();
      }
    }

    // Pops elements until one with one of the names has been popped.
    method PopThrough(names: set<Name>)
      requires Topmost(open, names) >= 0
      modifies `open
      ensures open == old(open)[..Topmost(old(open), names)]
    {
      ghost var was := open;
      while true
        invariant Topmost(was, names) < |open| <= |was| && open == was[..|open|]
        decreases |open|
      {
        var element := open[|open| - 1];
        PopCurrentNode();
        if element.name in names {
          break;
        }
      }
    }

    // Closes the topmost element with one of the names, with everything above it.
    method CloseElement(names: set<Name>, spared: set<Name>)
      requires Topmost(open, names) >= 0 && forall n :: n in names ==> !HasImpliedEnd(n) || n in spared
      modifies `open
      ensures open == old(open)[..Topmost(old(open), names)]
    {
      ImpliedStopsAbove(open, names, spared);
      GenerateImpliedEndTags(spared);
      PopThrough(names);
    }

    method ClearStackBackTo(names: set<Name>)
      requires Topmost(open, names) >= 0
      modifies `open
      ensures open == old(open)[..Topmost(old(open), names) + 1]
    {
      ghost var was := open;
      while open[|open| - 1].name !in names
        invariant Topmost(was, names) < |open| <= |was| && open == was[..|open|]
        decreases |open|
      {
        PopCurrentNode();
      }
    }

    method HasElementInScope(names: set<Name>, scope: Scope) returns (found: bool)
      ensures found == InScope(open, names, scope)
    {
      var i := |open|;
      while i > 0
        invariant 0 <= i <= |open|
        invariant forall j :: i <= j < |open| ==> open[j].name !in names && !EndsScope(scope, open[j].name)
      {
        i := i - 1;
        if open[i].name in names {
          return true;
        }
        if EndsScope(scope, open[i].name) {
          return false;
        }
      }
      return false;
    }

    // The first element from the top that is no option or optgroup decides, whatever it is.
    method HasElementInSelectScope(name: Name) returns (found: bool)
      ensures found == exists i :: 0 <= i < |open| && (open[i].name == name || !(open[i].name.Optgroup? || open[i].name.OptionName?))
    {
      var i := |open|;
      while i > 0
        invariant 0 <= i <= |open|
        invariant forall j :: i <= j < |open| ==> open[j].name != name && (open[j].name.Optgroup? || open[j].name.OptionName?)
      {
        i := i - 1;
        if open[i].name == name || !(open[i].name.Optgroup? || open[i].name.OptionName?) {
          return true;
        }
      }
      return false;
    }

    method RemoveFromStack(e: Element)
      modifies `open
      ensures open == if IndexOf(old(open), e) < 0 then old(open) else Removed(old(open), IndexOf(old(open), e))
    {
      var i := 0;
      while i < |open|
        invariant 0 <= i <= |open| && open == old(open) && e !in open[..i]
      {
        if open[i] == e {
          open := open[..i] + open[i + 1..];
          return;
        }
        i := i + 1;
      }
    }

    method AnyOtherEndTagInBody(tag: Tag) returns (ignored: bool)
      requires open != [] && IsSpecial(open[0].name)
      modifies `open
      ensures ignored <==> OtherMatch(old(open), tag.name) < 0
      ensures open == if ignored then old(open) else old(open)[..OtherMatch(old(open), tag.name)]
    {
      hide IsSpecial;
      hide ImpliedCut;
      hide Topmost;
      var index := |open| - 1;
      while true
        invariant 0 <= index < |open| && open == old(open)
        invariant forall j :: index < j < |open| ==> open[j].name != tag.name && !IsSpecial(open[j].name)
        decreases index
      {
        if open[index].name == tag.name {
          OtherMatchIs(open, tag.name, index);
          ImpliedStopsAbove(open, {tag.name}, {tag.name});
          GenerateImpliedEndTags({tag.name});
          while |open| != index
            invariant index <= |open| <= |old(open)| && open == old(open)[..|open|]
          {
            PopCurrentNode();
          }
          return false;
        }
        if IsSpecial(open[index].name) {
          return true;
        }
        index := index - 1;
      }
    }

    static lemma OtherMatchIs(open: Stack, n: Name, k: nat)
      requires k < |open| && open[k].name == n
      requires forall j :: k < j < |open| ==> open[j].name != n && !IsSpecial(open[j].name)
      ensures OtherMatch(open, n) == k == Topmost(open, {n})
    {
    }

    static function ModeFor(name: Name): Option<Mode> {
      if name.Select? then Some(InSelect)
      else if IsCell(name) then Some(InCell)
      else if name.Tr? then Some(InRow)
      else if IsTableBody(name) then Some(InTableBody)
      else if name.Caption? then Some(InCaption)
      else if name.Colgroup? then Some(InColumnGroup)
      else if name.Table? then Some(InTable)
      else if name.Head? || name.Body? then Some(InBody)
      else if name.Frameset? then Some(InFrameset)
      else if name.Html? then Some(BeforeHead)
      else None
    }

    // Where the stack is in a body, a cell or a caption, the mode for it is found before the bottom.
    method ResetInsertionMode()
      requires IsFlow(ZoneOf(open))
      modifies `mode
      ensures IsBodyMode(mode) && Home(mode) == ZoneOf(open) && mode == FlowMode(open)
    {
      AnchorOfFlow(open);
      var i := |open| - 1;
      while true
        invariant Anchor(open) <= i < |open|
        decreases i
      {
        var found := ModeFor(open[i].name);
        if found.Some? {
          mode := found.value;
          return;
        }
        i := i - 1;
      }
    }

    method StopParsing()
      requires Sound(open, active, tree, rank, nextId)
      modifies `open
      ensures open == [] && Sound(open, active, tree, rank, nextId)
    {
      ghost var was := open;
      SoundCut(open, active, tree, rank, nextId, 0);
      while |open| > 0
        invariant |open| <= |was| && open == was[..|open|]
      {
        PopCurrentNode();
      }
    }

    // ---------------------------------------------------------------------------------------------
    // The list of active formatting elements

    method InsertMarker()
      modifies `active, `nextId
      ensures active == old(active) + [Marker(old(nextId))] && nextId == old(nextId) + 1
    {
      active := active + [Marker(nextId)];
      nextId := nextId + 1;
    }

    method PushOntoActive(e: Element, tag: Tag)
      modifies `active, `nextId
      ensures active == Entered(old(active), Formatting(old(nextId), e, tag)) && nextId == old(nextId) + 1
    {
      hide *;
      ghost var family := FamilyOf(e);
      NoKin(family);
      var earliest, count := -1, 0;
      var i := 0;
      assert active[..0] == [];
      while i < |active|
        invariant 0 <= i <= |active| && active == old(active) && nextId == old(nextId)
        invariant count == Kin(active[..i], family) && earliest == Earliest(active[..i], family)
      {
        OneMoreKin(active, i, e);
        if active[i].Marker? {
          earliest, count := -1, 0;
        } else if active[i].element.name == e.name && |active[i].element.attributes| == |e.attributes| {
          count := count + 1;
          if earliest == -1 {
            earliest := i;
          }
        }
        i := i + 1;
      }
      assert active[..i] == active;
      EnteredIs(active, Formatting(nextId, e, tag));
      if earliest != -1 && count == 3 {
        active := active[..earliest] + active[earliest + 1..];
      }
      active := active + [Formatting(nextId, e, tag)];
      nextId := nextId + 1;
    }

    static lemma NoKin(f: Family)
      ensures Kin([], f) == 0 && Earliest([], f) == -1
    {
    }

    static lemma OneMoreKin(active: Entries, i: nat, e: Element)
      requires i < |active|
      ensures var f, kin := FamilyOf(e), active[i].Formatting? && active[i].element.name == e.name && |active[i].element.attributes| == |e.attributes|;
              && Kin(active[..i + 1], f) == (if active[i].Marker? then 0 else Kin(active[..i], f) + if kin then 1 else 0)
              && Earliest(active[..i + 1], f) ==
                 if active[i].Marker? then -1 else if Earliest(active[..i], f) >= 0 then Earliest(active[..i], f) else if kin then i else -1
    {
      assert active[..i + 1][..i] == active[..i];
      hide LastMarker;
    }

    static lemma EnteredIs(active: Entries, entry: Entry)
      requires entry.Formatting?
      ensures var f := FamilyOf(entry.element);
              && Entered(active, entry) == (if Kin(active, f) == 3 then Removed(active, Earliest(active, f)) else active) + [entry]
              && (Kin(active, f) == 3 ==> 0 <= Earliest(active, f) < |active|)
              && (0 <= Earliest(active, f) < |active| ==>
                    Removed(active, Earliest(active, f)) == active[..Earliest(active, f)] + active[Earliest(active, f) + 1..])
    {
      hide LastMarker;
      hide Kin;
    }

    method ClearActiveToLastMarker()
      requires LastMarker(active) >= 0
      modifies `active
      ensures active == old(active)[..LastMarker(old(active))]
    {
      ghost var was := active;
      while true
        invariant LastMarker(was) < |active| <= |was| && active == was[..|active|]
        decreases |active|
      {
        var entry := active[|active| - 1];
        active := active[..|active| - 1];
        if entry.Marker? {
          break;
        }
      }
    }

    method RemoveFromActive(e: Element)
      modifies `active
      ensures active == if EntryOf(old(active), e) < 0 then old(active) else Removed(old(active), EntryOf(old(active), e))
    {
      var i := 0;
      while i < |active|
        invariant 0 <= i <= |active| && active == old(active)
        invariant forall j :: 0 <= j < i ==> !(active[j].Formatting? && active[j].element == e)
      {
        if active[i].Formatting? && active[i].element == e {
          active := active[..i] + active[i + 1..];
          return;
        }
        i := i + 1;
      }
    }

    // The last entry after the last marker with an element of the name, or -1.
    method FindActive(name: Name) returns (k: int)
      ensures k == LastNamed(active, name)
    {
      k := |active| - 1;
      while k >= 0 && active[k].Formatting? && active[k].element.name != name
        invariant -1 <= k < |active|
        invariant forall j :: k < j < |active| ==> active[j].Formatting? && active[j].element.name != name
        decreases k
      {
        k := k - 1;
      }
      LastNamedIs(active, name, k);
      if k >= 0 && active[k].Marker? {
        k := -1;
      }
    }

    method ReconstructActive()
      requires Sound(open, active, tree, rank, nextId) && open != []
      modifies `open, `active, `tree, `rank, `nextId
      ensures Sound(open, active, tree, rank, nextId)
      ensures Snapshot(open, active, tree, nextId) == Reconstructed(old(Snapshot(open, active, tree, nextId)))
    {
      hide *;
      NothingReopened(open, active, tree, rank, nextId);
      if |active| == 0 || active[|active| - 1].Marker? || active[|active| - 1].element in open {
        return;
      }
      var index := |active| - 1;
      while true
        invariant 0 <= index < |active|
        invariant forall p :: index <= p < |active| ==> active[p].Formatting? && active[p].element !in open
        decreases index
      {
        if index == 0 {
          break;
        }
        index := index - 1;
        if active[index].Marker? || active[index].element in open {
          index := index + 1;
          break;
        }
      }
      ReopenEntries(index);
    }

    // Gives every entry from the index on a new element, each pushed below the one before.  None of them
    // is a marker, so the program's guard against one is never taken.
    method ReopenEntries(first: nat)
      requires Sound(open, active, tree, rank, nextId) && open != [] && first < |active|
      requires forall p :: first <= p < |active| ==> active[p].Formatting? && active[p].element !in open
      requires first > 0 ==> active[first - 1].Marker? || active[first - 1].element in open
      modifies `open, `active, `tree, `rank, `nextId
      ensures Sound(open, active, tree, rank, nextId)
      ensures Snapshot(open, active, tree, nextId) == Reconstructed(old(Snapshot(open, active, tree, nextId)))
    {
      hide *;
      ghost var open0, active0, tree0, next0 := open, active, tree, nextId;
      ReopenFromIs(active, open, first);
      TopInTree(open, active, tree, rank, nextId);
      ReopeningBegins(open, active, tree, first, nextId);
      var index := first;
      while true
        invariant first <= index < |active| == |active0|
        invariant Sound(open, active, tree, rank, nextId) && open != []
        invariant forall p :: first <= p < |active| ==> active[p].Formatting?
        invariant Reopening(open0, active0, tree0, next0, first, index, open, active, tree, nextId)
        decreases |active| - index
      {
        TopInTree(open, active, tree, rank, nextId);
        ReopeningStep(open0, active0, tree0, next0, first, index, open, active, tree, nextId);
        ReopenedOne(open, active, tree, rank, nextId, index);
        rank := rank[nextId := rank[Top(open).id] + 1.0];
        var e := CreateAnElement(active[index].tag);
        tree := Appended(tree, Top(open).id, e.id);
        open := open + [e];
        active := active[index := active[index].(element := e)];
        index := index + 1;
        if index == |active| {
          break;
        }
      }
      ReopeningEnds(open0, active0, tree0, next0, first, open, active, tree, nextId);
    }

    static ghost predicate Reopening(open0: Stack, active0: Entries, tree0: Tree, next0: NodeId, first: nat, index: nat,
                                     open: Stack, active: Entries, tree: Tree, next: NodeId)
    {
      && first <= index <= |active0| && (forall p :: first <= p < |active0| ==> active0[p].Formatting?)
      && open0 != [] && Top(open0).id in tree0
      && next == next0 + index - first
      && active == Reopened(active0, first, index, next0)
      && open == open0 + NewElements(active0, first, index, next0)
      && tree == Chained(tree0, Top(open0).id, NewElements(active0, first, index, next0))
    }

    static lemma NothingReopened(open: Stack, active: Entries, t: Tree, rank: map<NodeId, real>, next: NodeId)
      requires Sound(open, active, t, rank, next) && open != []
      ensures |active| == 0 || active[|active| - 1].Marker? || active[|active| - 1].element in open ==>
                Reconstructed(Snapshot(open, active, t, next)) == Snapshot(open, active, t, next)
    {
      ReopenedNone(active, |active|, next);
    }

    static lemma ReopeningBegins(open: Stack, active: Entries, t: Tree, first: nat, next: NodeId)
      requires first < |active| && open != [] && Top(open).id in t && forall p :: first <= p < |active| ==> active[p].Formatting?
      ensures Reopening(open, active, t, next, first, first, open, active, t, next)
    {
      ReopenedNone(active, first, next);
    }

    static lemma ReopeningStep(open0: Stack, active0: Entries, tree0: Tree, next0: NodeId, first: nat, index: nat,
                               open: Stack, active: Entries, tree: Tree, next: NodeId)
      requires Reopening(open0, active0, tree0, next0, first, index, open, active, tree, next)
      requires index < |active0| && open != [] && Top(open).id in tree
      ensures |active| == |active0| && active[index].Formatting?
      ensures var e := NewElement(next, active[index].tag);
              Reopening(open0, active0, tree0, next0, first, index + 1, open + [e], active[index := active[index].(element := e)],
                        Grown(tree, Top(open).id, next, ElementNode(e)), next + 1)
    {
      ReopenedStep(active0, first, index, next0);
      var es, more := NewElements(active0, first, index, next0), NewElements(active0, first, index + 1, next0);
      assert Below(more) == es;
      assert open0 + more == open + [Top(more)];
    }

    static lemma ReopenedOne(open: Stack, active: Entries, t: Tree, rank: map<NodeId, real>, next: NodeId, q: nat)
      requires Sound(open, active, t, rank, next) && open != [] && q < |active| && forall p :: q <= p < |active| ==> active[p].Formatting?
      ensures var e, top := NewElement(next, active[q].tag), Top(open).id;
              && top in t && top in rank && e.id == next
              && Grown(t, top, next, ElementNode(e)) == Appended(Created(t, next, ElementNode(e)), top, next)
              && Sound(open + [e], active[q := active[q].(element := e)], Grown(t, top, next, ElementNode(e)), rank[next := rank[top] + 1.0], next + 1)
    {
      SoundReopen(open, active, t, rank, next, q);
    }

    static lemma ReopeningEnds(open0: Stack, active0: Entries, tree0: Tree, next0: NodeId, first: nat,
                               open: Stack, active: Entries, tree: Tree, next: NodeId)
      requires ReopenFrom(active0, open0) == first
      requires Reopening(open0, active0, tree0, next0, first, |active0|, open, active, tree, next)
      ensures Snapshot(open, active, tree, next) == Reconstructed(Snapshot(open0, active0, tree0, next0))
    {
    }

    // ---------------------------------------------------------------------------------------------
    // The adoption agency

    // Up to eight rounds; a round that finds nothing to rehang is the last.
    method AdoptionAgency(tag: Tag) returns (out: Outcome)
      requires Sound(open, active, tree, rank, nextId) && IsFlow(ZoneOf(open)) && IsFormatting(tag.name)
      modifies `open, `active, `tree, `rank, `nextId
      ensures Sound(open, active, tree, rank, nextId) && ZoneOf(open) == ZoneOf(old(open))
      ensures Snapshot(open, active, tree, nextId) == Rounds(8, old(Snapshot(open, active, tree, nextId)), tag.name)
      ensures out == RoundsOutcome(8, old(Snapshot(open, active, tree, nextId)), tag.name) && !out.Reprocess?
      ensures out.Failed? <==> LooksBefore(old(open), old(active), tag.name)
      ensures out.Failed? ==> out.fault.BeforeFirstEntry? && Snapshot(open, active, tree, nextId) == old(Snapshot(open, active, tree, nextId))
    {
      hide *;
      ghost var s := Snapshot(open, active, tree, nextId);
      EntriesOwnNames(open, active, tree, rank, nextId);
      AgencyFailsIff(8, s, tag.name);
      var rounds := 0;
      while rounds < 8
        invariant rounds <= 8
        invariant Sound(open, active, tree, rank, nextId) && ZoneOf(open) == ZoneOf(old(open))
        invariant Rounds(8 - rounds, Snapshot(open, active, tree, nextId), tag.name) == Rounds(8, s, tag.name)
        invariant RoundsOutcome(8 - rounds, Snapshot(open, active, tree, nextId), tag.name) == RoundsOutcome(8, s, tag.name)
      {
        RoundsUnfold(8 - rounds, Snapshot(open, active, tree, nextId), tag.name);
        rounds := rounds + 1;
        var last;
        last, out := AdoptionRound(tag);
        if last {
          return;
        }
      }
      RoundsUnfold(0, Snapshot(open, active, tree, nextId), tag.name);
      out := Done(false);
    }

    static lemma EntriesOwnNames(open: Stack, active: Entries, t: Tree, rank: map<NodeId, real>, next: NodeId)
      requires Sound(open, active, t, rank, next)
      ensures OwnNames(active)
    {
      hide Balanced;
      OwnEntries(open, active, t, rank, next);
    }

    // One round: what it does is what the plan for the stack and the list says.
    method AdoptionRound(tag: Tag) returns (last: bool, out: Outcome)
      requires Sound(open, active, tree, rank, nextId) && IsFlow(ZoneOf(open)) && IsFormatting(tag.name)
      modifies `open, `active, `tree, `rank, `nextId
      ensures Sound(open, active, tree, rank, nextId) && ZoneOf(open) == ZoneOf(old(open))
      ensures Snapshot(open, active, tree, nextId) == RoundOn(old(Snapshot(open, active, tree, nextId)), tag.name)
      ensures out == RoundOutcome(old(Snapshot(open, active, tree, nextId)), tag.name)
      ensures last <==> !GoesOn(old(Snapshot(open, active, tree, nextId)), tag.name)
      ensures !out.Reprocess? && (out.Failed? ==> out.fault.BeforeFirstEntry?)
    {
      hide IndexOf;
      hide LastNamed;
      hide FurthestBlock;
      hide IsPlain;
      hide TakesMarker;
      hide EntryOf;
      hide Sound;
      hide ZoneOf;
      hide IsFormatting;
      hide Anchor;
      hide IsSpecial;
      hide InRound;
      hide StackAfter;
      hide ListAfter;
      hide TreeAfter;
      hide LastMarker;
      hide InScope;
      hide Topmost;
      hide InList;
      ghost var plan := PlanOf(open, active, tag.name);
      PlanInside(open, active, tree, rank, nextId, tag.name);
      var k := FindActive(tag.name);
      if k < 0 {
        OtherInside(open, active, tree, rank, nextId, tag.name);
        var ignored := AnyOtherEndTagInBody(tag);
        return true, Done(ignored);
      }
      var entry := active[k];
      var f := FindOpen(entry.element);
      if f < 0 {
        ForgetEntry(open, active, tree, rank, nextId, k);
        RemoveFromActive(entry.element);
        return true, Done(false);
      }
      var inScope := HasElementInScope({tag.name}, Ordinary);
      if !inScope {
        return true, Done(true);
      }
      var g := FindFurthestBlock(f);
      if g < 0 {
        CloseFormatting(k, f);
        return true, Done(false);
      }
      if k == 0 {
        return true, Failed(BeforeFirstEntry);
      }
      Rehang(k, f, g);
      return false, Done(false);
    }

    // Moves the furthest block up to the common ancestor and lets a copy of the formatting element, inside
    // the block, take over its children.
    method Rehang(k: nat, f: nat, g: nat)
      requires InRound(open, active, tree, rank, nextId, k, f, g)
      modifies `open, `active, `tree, `rank, `nextId
      ensures open == StackAfter(old(open), old(active), k, f, g, old(nextId))
      ensures active == ListAfter(old(open), old(active), k, f, g, old(nextId))
      ensures tree == TreeAfter(old(tree), old(open), old(active), k, f, g, old(nextId))
      ensures nextId == FreshId(InnerOf(old(open), old(active), f, g), old(nextId)) + 2
      ensures Sound(open, active, tree, rank, nextId) && ZoneOf(open) == ZoneOf(old(open))
    {
      hide *;
      ghost var open0, active0, tree0, rank0, next0 := open, active, tree, rank, nextId;
      InRoundFacts(open0, active0, tree0, rank0, next0, k, f, g);
      RoundSound(open0, active0, tree0, rank0, next0, k, f, g);
      EntryPlace(open0, active0, tree0, rank0, next0, k, f, g);
      BlockPlace(open0, active0, tree0, rank0, next0, k, f, g);
      AfterIs(open0, active0, k, f, g, next0);
      var entry, ancestor, block := active[k], open[f - 1], open[g];
      var last, bookmark := RehangInside(entry.element, block, open[g - 1], active[k - 1].id, k, f, g);
      InsideIs(open0, active0, tree0, next0, f, g, active0[k - 1].id, open, active, tree, nextId, last, bookmark);
      var made := HandOver(last, ancestor, block, entry.tag, open0, active0, tree0, rank0, next0, k, f, g);
      ReplaceEntry(entry.element, bookmark, made, entry.tag);
      ReplaceElement(entry.element, block, made);
      rank := RankAfter(open0, active0, tree0, rank0, next0, k, f, g);
    }

    static lemma InsideIs(open0: Stack, active0: Entries, tree0: Tree, next0: NodeId, f: nat, g: nat, before: NodeId,
                          open: Stack, active: Entries, tree: Tree, next: NodeId, last: Element, bookmark: NodeId)
      requires f < g < |open0| && Inside(open0, active0, tree0, next0, f, g, before, open, active, tree, next, last, bookmark)
      ensures var inner := InnerOf(open0, active0, f, g);
              var clone := CloneOf(active0, inner, next0);
              && open == StackInside(open0, active0, f, g, inner, next0)
              && active == ListInside(active0, inner, next0)
              && next == FreshId(inner, next0)
              && tree == (if clone.Some? then Moved(Created(tree0, next0, ElementNode(clone.value)), open0[g].id, next0) else tree0)
              && last.id == (if clone.Some? then next0 else open0[g].id)
              && bookmark == (if inner.Cloned? then active0[inner.q].id else before)
    {
    }

    static lemma AfterIs(open: Stack, active: Entries, k: nat, f: nat, g: nat, next: NodeId)
      requires f < g < |open| && 0 < k < |active| && active[k].Formatting?
      ensures var inner := InnerOf(open, active, f, g);
              var made := NewElement(FreshId(inner, next), active[k].tag);
              && made.id == FreshId(inner, next) >= next && Bookmark(inner, k) > 0
              && StackAfter(open, active, k, f, g, next) ==
                 Inserted(Removed(StackInside(open, active, f, g, inner, next), f), if inner.Dropped? then g - 1 else g, made)
              && ListAfter(open, active, k, f, g, next) ==
                 Inserted(Removed(ListInside(active, inner, next), k), Bookmark(inner, k), Formatting(made.id + 1, made, active[k].tag))
              && (if inner.Dropped? then g - 1 else g) > 0
    {
    }

    // The last node goes below the common ancestor, which is never a table, a table body or a row, so that
    // nothing is foster parented; then a new element takes over the children of the block.
    method HandOver(last: Element, ancestor: Element, block: Element, tag: Tag, ghost open0: Stack, ghost active0: Entries,
                    ghost tree0: Tree, ghost rank0: map<NodeId, real>, ghost next0: NodeId, ghost k: nat, ghost f: nat, ghost g: nat)
      returns (made: Element)
      requires InRound(open0, active0, tree0, rank0, next0, k, f, g)
      requires 0 < f < g < |open0| && k < |active0| && active0[k].Formatting? && tag == active0[k].tag
      requires ancestor == open0[f - 1] && block == open0[g] && nextId == FreshId(InnerOf(open0, active0, f, g), next0)
      requires var clone := CloneOf(active0, InnerOf(open0, active0, f, g), next0);
               && tree == (if clone.Some? then Moved(Created(tree0, next0, ElementNode(clone.value)), open0[g].id, next0) else tree0)
               && last.id == (if clone.Some? then next0 else open0[g].id)
      modifies `tree, `nextId
      ensures made == NewElement(old(nextId), tag) && nextId == old(nextId) + 1
      ensures tree == TreeAfter(tree0, open0, active0, k, f, g, next0)
    {
      hide *;
      TreeSteps(open0, active0, tree0, rank0, next0, k, f, g);
      IsMade(nextId, tag);
      tree := Unparented(tree, last.id);
      tree := Appended(tree, ancestor.id, last.id);
      made := CreateAnElement(tag);
      TakeAllChildNodesOf(made.id, block.id);
      tree := Appended(tree, block.id, made.id);
    }

    static lemma IsMade(id: NodeId, tag: Tag)
      ensures NewElement(id, tag).id == id
    {
    }

    // The entry for the element is replaced by one for the new element, after the bookmark.
    method ReplaceEntry(e: Element, bookmark: NodeId, made: Element, tag: Tag)
      requires EntryOf(active, e) >= 0
      requires forall p, q :: 0 <= p < q < |Removed(active, EntryOf(active, e))| ==>
                 Removed(active, EntryOf(active, e))[p].id != Removed(active, EntryOf(active, e))[q].id
      requires PlaceOf(Removed(active, EntryOf(active, e)), bookmark) >= 0 && bookmark < nextId
      modifies `active, `nextId
      ensures nextId == old(nextId) + 1
      ensures active == Inserted(Removed(old(active), EntryOf(old(active), e)), PlaceOf(Removed(old(active), EntryOf(old(active), e)), bookmark) + 1,
                                 Formatting(old(nextId), made, tag))
    {
      RemoveFromActive(e);
      InsertAfterBookmark(bookmark, Formatting(nextId, made, tag));
      nextId := nextId + 1;
    }

    // The element is taken off the stack and the new one put in below the block.
    method ReplaceElement(e: Element, block: Element, made: Element)
      requires IndexOf(open, e) >= 0 && Distinct(Removed(open, IndexOf(open, e))) && made != block
      requires IndexOf(Removed(open, IndexOf(open, e)), block) >= 0
      modifies `open
      ensures open == Inserted(Removed(old(open), IndexOf(old(open), e)), IndexOf(Removed(old(open), IndexOf(old(open), e)), block) + 1, made)
    {
      RemoveFromStack(e);
      InsertAfterElement(block, made);
    }

    // The tree after a round, in the order in which the round builds it.
    static lemma TreeSteps(open: Stack, active: Entries, t: Tree, rank: map<NodeId, real>, next: NodeId, k: nat, f: nat, g: nat)
      requires InRound(open, active, t, rank, next, k, f, g)
      ensures var inner := InnerOf(open, active, f, g);
              var clone := CloneOf(active, inner, next);
              var t1 := if clone.Some? then Moved(Created(t, next, ElementNode(clone.value)), open[g].id, next) else t;
              var last := if clone.Some? then next else open[g].id;
              var made := NewElement(FreshId(inner, next), active[k].tag);
              var u := Created(Appended(Unparented(t1, last), open[f - 1].id, last), made.id, ElementNode(made));
              && open[g].id in u && made.id in u && made.id != open[g].id
              && (forall c :: c in u[open[g].id].children ==> c in u && c != made.id && c != open[g].id)
              && Appended(Taken(u, made.id, open[g].id, |u[open[g].id].children|), open[g].id, made.id) == TreeAfter(t, open, active, k, f, g, next)
    {
      hide Sound;
      hide ZoneOf;
      hide Anchor;
      hide LastMarker;
      hide Appended;
      hide Unparented;
      hide Taken;
      hide Edge;
      hide Linked;
      hide Ranked;
      hide Slot;
      var inner := InnerOf(open, active, f, g);
      var clone := CloneOf(active, inner, next);
      CanRehangHere(open, active, t, rank, next, k, f, g);
      RehungNodes(t, open[f - 1].id, open[g].id, clone);
      CanSpliceHere(open, active, t, rank, next, k, f, g);
      ChildrenOf(Rehung(t, open[f - 1].id, open[g].id, clone), RankWith(rank, clone, rank[open[g - 1].id]), open[g].id);
    }

    // The program's innermost loop, which looks at the same element each of its three times.
    method RehangInside(element: Element, block: Element, above: Element, before: NodeId, ghost k: nat, ghost f: nat, ghost g: nat)
      returns (last: Element, bookmark: NodeId)
      requires InRound(open, active, tree, rank, nextId, k, f, g)
      requires element == open[f] && block == open[g] && above == open[g - 1]
      modifies `open, `active, `tree, `nextId
      ensures Inside(old(open), old(active), old(tree), old(nextId), f, g, before, open, active, tree, nextId, last, bookmark)
    {
      hide Sound;
      hide ZoneOf;
      hide Anchor;
      hide LastMarker;
      hide InList;
      hide Moved;
      hide Created;
      ghost var open0, active0, tree0, next0 := open, active, tree, nextId;
      InsideFacts(open0, active0, tree0, rank, next0, k, f, g);
      last, bookmark := block, before;
      var rounds := 0;
      while rounds < 3
        invariant rounds == 0 ==> open == open0 && active == active0 && tree == tree0 && nextId == next0 && last == block && bookmark == before
        invariant rounds > 0 ==> g - 1 != f && Inside(open0, active0, tree0, next0, f, g, before, open, active, tree, nextId, last, bookmark)
        decreases 3 - rounds
      {
        rounds := rounds + 1;
        if !InList(above, active) {
          RemoveFromStack(above);
          continue;
        }
        if above == element {
          break;
        }
        last, bookmark := CloneAbove(above, block, last, bookmark, g);
      }
    }

    static lemma InsideFacts(open: Stack, active: Entries, t: Tree, rank: map<NodeId, real>, next: NodeId, k: nat, f: nat, g: nat)
      requires InRound(open, active, t, rank, next, k, f, g)
      ensures Distinct(open) && InList(open[f], active) && IndexOf(open, open[g - 1]) == g - 1
      ensures EntryOf(active, open[g - 1]) >= 0 <==> InList(open[g - 1], active)
      ensures g - 1 != f ==>
                var inner := InnerOf(open, active, f, g);
                && open[g - 1] != open[f]
                && !InList(open[g - 1], ListInside(active, inner, next))
                && IndexOf(StackInside(open, active, f, g, inner, next), open[g - 1]) < 0
    {
      hide Lineage;
      hide Balanced;
      hide ZoneOf;
      hide Anchor;
      hide LastMarker;
      SoundIsDistinct(open, active, t, rank, next);
      if g - 1 != f {
        AboveIsGone(open, active, t, rank, next, f, g);
      }
    }

    // The element and its entry are replaced by a clone, which takes in the last node.
    method CloneAbove(above: Element, block: Element, last: Element, bookmark: NodeId, ghost g: nat) returns (clone: Element, moved: NodeId)
      requires InList(above, active) && 0 < g < |open| && open[g - 1] == above && Distinct(open)
      modifies `open, `active, `tree, `nextId
      ensures EntryOf(old(active), above) >= 0 && clone == NewElement(old(nextId), old(active)[EntryOf(old(active), above)].tag)
      ensures active == old(active)[EntryOf(old(active), above) := old(active)[EntryOf(old(active), above)].(element := clone)]
      ensures open == old(open)[g - 1 := clone] && nextId == old(nextId) + 1
      ensures tree == Moved(Created(old(tree), clone.id, ElementNode(clone)), last.id, clone.id)
      ensures moved == if last == block then old(active)[EntryOf(old(active), above)].id else bookmark
    {
      hide Moved;
      hide Created;
      hide InList;
      var q := FindEntry(above);
      clone := CreateAnElement(active[q].tag);
      active := active[q := active[q].(element := clone)];
      ReplaceInStack(above, clone);
      moved := bookmark;
      if last == block {
        moved := active[q].id;
      }
      MovedIs(tree, last.id, clone.id);
      tree := Unparented(tree, last.id);
      tree := Appended(tree, clone.id, last.id);
    }

    static lemma MovedIs(t: Tree, x: NodeId, p: NodeId)
      ensures Moved(t, x, p) == Appended(Unparented(t, x), p, x)
    {
    }

    method FindEntry(e: Element) returns (q: int)
      ensures q == EntryOf(active, e)
    {
      q := 0;
      while q < |active|
        invariant 0 <= q <= |active|
        invariant forall i :: 0 <= i < q ==> !(active[i].Formatting? && active[i].element == e)
      {
        if active[q].Formatting? && active[q].element == e {
          return;
        }
        q := q + 1;
      }
      q := -1;
    }

    method ReplaceInStack(e: Element, other: Element)
      modifies `open
      ensures |open| == |old(open)| && forall i :: 0 <= i < |open| ==> open[i] == if old(open)[i] == e then other else old(open)[i]
    {
      var i := 0;
      while i < |open|
        invariant 0 <= i <= |open| == |old(open)|
        invariant forall j :: 0 <= j < i ==> open[j] == if old(open)[j] == e then other else old(open)[j]
        invariant forall j :: i <= j < |open| ==> open[j] == old(open)[j]
      {
        if open[i] == e {
          open := open[i := other];
        }
        i := i + 1;
      }
    }

    method TakeAllChildNodesOf(to: NodeId, from: NodeId)
      requires from in tree && to in tree && to != from
      requires forall c :: c in tree[from].children ==> c in tree && c != to && c != from
      modifies `tree
      ensures from in old(tree) && tree == Taken(old(tree), to, from, |old(tree)[from].children|)
    {
      hide Appended;
      ghost var tree0 := tree;
      var index := 0;
      while index < |tree[from].children|
        invariant from in tree && tree[from].children == tree0[from].children
        invariant 0 <= index <= |tree0[from].children| && tree == Taken(tree0, to, from, index)
      {
        TakenChildren(tree0, to, from, index + 1);
        tree := Appended(tree, to, tree[from].children[index]);
        index := index + 1;
      }
    }

    static lemma {:induction false} TakenChildren(t: Tree, to: NodeId, from: NodeId, n: nat)
      requires from in t && to != from && n <= |t[from].children|
      requires forall c :: c in t[from].children ==> c != from
      ensures Taken(t, to, from, n).Keys == t.Keys && Taken(t, to, from, n)[from].children == t[from].children
      ensures n > 0 ==> Taken(t, to, from, n) == Appended(Taken(t, to, from, n - 1), to, t[from].children[n - 1])
    {
      if n > 0 {
        TakenChildren(t, to, from, n - 1);
      }
    }

    method InsertAfterBookmark(bookmark: NodeId, entry: Entry)
      requires forall p, q :: 0 <= p < q < |active| ==> active[p].id != active[q].id
      requires entry.id != bookmark
      modifies `active
      ensures active == if PlaceOf(old(active), bookmark) < 0 then old(active) else Inserted(old(active), PlaceOf(old(active), bookmark) + 1, entry)
    {
      var i := 0;
      ghost var p := PlaceOf(active, bookmark);
      while i < |active|
        invariant 0 <= i <= |active|
        invariant active == if 0 <= p < i then Inserted(old(active), p + 1, entry) else old(active)
        decreases |old(active)| + 1 - i
      {
        if active[i].id == bookmark {
          active := active[..i + 1] + [entry] + active[i + 1..];
        }
        i := i + 1;
      }
    }

    method InsertAfterElement(block: Element, e: Element)
      requires Distinct(open) && e != block
      modifies `open
      ensures open == if IndexOf(old(open), block) < 0 then old(open) else Inserted(old(open), IndexOf(old(open), block) + 1, e)
    {
      var i := 0;
      ghost var p := IndexOf(open, block);
      while i < |open|
        invariant 0 <= i <= |open|
        invariant open == if 0 <= p < i then Inserted(old(open), p + 1, e) else old(open)
        decreases |old(open)| + 1 - i
      {
        if open[i] == block {
          open := open[..i + 1] + [e] + open[i + 1..];
        }
        i := i + 1;
      }
    }

    static ghost predicate Inside(open0: Stack, active0: Entries, tree0: Tree, next0: NodeId, f: nat, g: nat, before: NodeId,
                                  open: Stack, active: Entries, tree: Tree, next: NodeId, last: Element, bookmark: NodeId)
      requires f < g < |open0|
    {
      var inner := InnerOf(open0, active0, f, g);
      var clone := CloneOf(active0, inner, next0);
      && open == StackInside(open0, active0, f, g, inner, next0)
      && active == ListInside(active0, inner, next0)
      && next == FreshId(inner, next0)
      && tree == (if clone.Some? then Moved(Created(tree0, next0, ElementNode(clone.value)), open0[g].id, next0) else tree0)
      && last == (if clone.Some? then clone.value else open0[g])
      && bookmark == (if inner.Cloned? then active0[inner.q].id else before)
    }

    // Nothing special is above the formatting element: it is closed, and its entry goes.
    method CloseFormatting(k: nat, f: nat)
      requires Sound(open, active, tree, rank, nextId) && IsFlow(ZoneOf(open)) && Anchor(open) < f < |open| && Distinct(open)
      requires k < |active| && active[k].Formatting? && active[k].element == open[f] && EntryOf(active, open[f]) == k
      modifies `open, `active
      ensures Sound(open, active, tree, rank, nextId) && ZoneOf(open) == ZoneOf(old(open))
      ensures open == old(open)[..f] && active == Removed(old(active), k)
    {
      hide *;
      ForgetEntry(open, active, tree, rank, nextId, k);
      CloseInside(open, Removed(active, k), tree, rank, nextId, f);
      var element := active[k].element;
      PopThroughElement(f);
      RemoveFromActive(element);
    }

    static lemma PlanInside(open: Stack, active: Entries, t: Tree, rank: map<NodeId, real>, next: NodeId, name: Name)
      requires Sound(open, active, t, rank, next) && IsFlow(ZoneOf(open)) && IsFormatting(name)
      ensures var plan := PlanOf(open, active, name);
              && (plan.Rehang? || plan.CloseAll? ==> 0 < Anchor(open) < plan.f)
              && (plan.Rehang? && plan.k > 0 ==> InRound(open, active, t, rank, next, plan.k, plan.f, plan.g))
              && (LastNamed(active, name) >= 0 ==> EntryOf(active, active[LastNamed(active, name)].element) == LastNamed(active, name))
              && 0 < Anchor(open) && name != open[Anchor(open)].name
              && open != [] && IsSpecial(open[0].name) && Distinct(open)
    {
      AnchorFacts(open, name);
      SoundParts(open, active, t, rank, next);
      PlanStaysInside(open, active, name);
      GroundedIsDistinct(open, active, t, rank, next);
      OwnEntries(open, active, t, rank, next);
      hide Grounded;
      hide Balanced;
      hide ZoneOf;
      hide Anchor;
      hide IsSpecial;
      hide IsPlain;
      hide IsFormatting;
      hide FurthestBlock;
      hide InScope;
      hide LastMarker;
      hide InList;
      if LastNamed(active, name) >= 0 {
        assert EntryOf(active, active[LastNamed(active, name)].element) >= 0;
      }
    }

    static lemma AnchorFacts(open: Stack, name: Name)
      requires IsFlow(ZoneOf(open)) && IsFormatting(name)
      ensures 0 < Anchor(open) && name != open[Anchor(open)].name && open != [] && IsSpecial(open[0].name)
    {
      AnchorOfFlow(open);
      hide ZoneOf;
      hide Anchor;
    }

    static lemma OwnEntries(open: Stack, active: Entries, t: Tree, rank: map<NodeId, real>, next: NodeId)
      requires Grounded(open, active, t, rank, next)
      ensures forall p, q :: 0 <= p < q < |active| && active[p].Formatting? && active[q].Formatting? ==> active[p].element != active[q].element
      ensures OwnNames(active)
    {
      hide Lineage;
      hide Ark;
    }

    static lemma OtherInside(open: Stack, active: Entries, t: Tree, rank: map<NodeId, real>, next: NodeId, name: Name)
      requires Sound(open, active, t, rank, next) && IsFlow(ZoneOf(open))
      requires 0 < Anchor(open) && name != open[Anchor(open)].name
      ensures var m := OtherMatch(open, name);
              m >= 0 ==> Sound(open[..m], active, t, rank, next) && ZoneOf(open[..m]) == ZoneOf(open)
    {
      hide Sound;
      if OtherMatch(open, name) >= 0 {
        OtherMatchAboveAnchor(open, name);
        CloseInside(open, active, t, rank, next, OtherMatch(open, name));
      }
    }

    static lemma CloseInside(open: Stack, active: Entries, t: Tree, rank: map<NodeId, real>, next: NodeId, k: nat)
      requires Sound(open, active, t, rank, next) && IsFlow(ZoneOf(open)) && Anchor(open) < k <= |open|
      ensures Sound(open[..k], active, t, rank, next) && ZoneOf(open[..k]) == ZoneOf(open)
    {
      SoundCut(open, active, t, rank, next, k);
      FlowCut(open, k);
    }

    static lemma ForgetEntry(open: Stack, active: Entries, t: Tree, rank: map<NodeId, real>, next: NodeId, k: nat)
      requires Sound(open, active, t, rank, next) && k < |active| && active[k].Formatting?
      ensures Sound(open, Removed(active, k), t, rank, next)
    {
      SoundDrop(open, active, t, rank, next, k);
    }

    method FindOpen(e: Element) returns (f: int)
      ensures f == IndexOf(open, e)
    {
      f := 0;
      while f < |open|
        invariant 0 <= f <= |open| && e !in open[..f]
      {
        if open[f] == e {
          return;
        }
        f := f + 1;
      }
      assert open[..f] == open;
      f := -1;
    }

    // Looks down from the top to the element at f, and keeps the last special element it meets.
    method FindFurthestBlock(f: nat) returns (g: int)
      requires f < |open| && Distinct(open)
      ensures g == FurthestBlock(open, f)
    {
      g := -1;
      var i := |open| - 1;
      while open[i] != open[f]
        invariant f <= i < |open|
        invariant g == -1 || (i < g < |open| && IsSpecial(open[g].name))
        invariant forall j :: i < j < (if g >= 0 then g else |open|) ==> !IsSpecial(open[j].name)
        decreases i
      {
        if IsSpecial(open[i].name) {
          g := i;
        }
        i := i - 1;
      }
      FurthestBlockIs(open, f, g);
    }

    method PopThroughElement(f: nat)
      requires f < |open| && Distinct(open)
      modifies `open
      ensures open == old(open)[..f]
    {
      ghost var was := open;
      var e := open[f];
      while true
        invariant f < |open| <= |was| && open == was[..|open|]
        decreases |open|
      {
        var node := open[|open| - 1];
        PopCurrentNode();
        if node == e {
          break;
        }
      }
    }

    // ---------------------------------------------------------------------------------------------
    // In a body, a cell or a caption

    method InsertPlain(tag: Tag) returns (e: Element)
      requires Flowing(mode, open, active, tree, rank, nextId) && IsPlain(tag.name) && !TakesMarker(tag.name)
      modifies `open, `tree, `rank, `nextId
      ensures Flowing(mode, open, active, tree, rank, nextId)
      ensures e == NewElement(old(nextId), tag) && nextId == old(nextId) + 1 && open == old(open) + [e]
      ensures Snapshot(open, active, tree, nextId) == Opened(old(Snapshot(open, active, tree, nextId)), tag)
    {
      hide *;
      FlowInside(mode, open, active, tree, rank, nextId);
      FlowGrows(mode, open, active, tree, rank, nextId, tag);
      e := InsertAnElement(tag);
      FlowIf(mode, open, active, tree, rank, nextId);
    }

    static lemma FlowInside(mode: Mode, open: Stack, active: Entries, t: Tree, rank: map<NodeId, real>, next: NodeId)
      requires Flowing(mode, open, active, t, rank, next)
      ensures open != [] && Sound(open, active, t, rank, next) && Grounded(open, active, t, rank, next) && Balanced(open, active)
      ensures IsFlow(ZoneOf(open)) && IsBodyMode(mode) && ZoneOf(open) == Home(mode) && !mode.Text? && !mode.InTableText?
    {
      hide Grounded;
      hide Balanced;
    }

    static lemma FlowIf(mode: Mode, open: Stack, active: Entries, t: Tree, rank: map<NodeId, real>, next: NodeId)
      requires Grounded(open, active, t, rank, next) && Balanced(open, active)
      requires IsBodyMode(mode) && ZoneOf(open) == Home(mode)
      ensures Flowing(mode, open, active, t, rank, next)
    {
      hide Grounded;
      hide Balanced;
    }

    static lemma FlowGrows(mode: Mode, open: Stack, active: Entries, t: Tree, rank: map<NodeId, real>, next: NodeId, tag: Tag)
      requires Flowing(mode, open, active, t, rank, next) && IsPlain(tag.name)
      ensures ZoneOf(open + [NewElement(next, tag)]) == Home(mode)
    {
      hide Sound;
      FlowPush(open, NewElement(next, tag));
    }

    // An applet, marquee or object, which is opened together with a marker.
    method InsertMarked(tag: Tag)
      requires Flowing(mode, open, active, tree, rank, nextId) && IsEmbedded(tag.name)
      modifies `open, `active, `tree, `rank, `nextId
      ensures Flowing(mode, open, active, tree, rank, nextId)
      ensures open == old(open) + [NewElement(old(nextId), tag)] && active == old(active) + [Marker(old(nextId) + 1)]
      ensures Snapshot(open, active, tree, nextId) == Marked(old(Snapshot(open, active, tree, nextId)), tag)
    {
      hide *;
      FlowInside(mode, open, active, tree, rank, nextId);
      MarkedIs(Snapshot(open, active, tree, nextId), tag);
      EmbeddedIsPlain(tag.name);
      FlowGrows(mode, open, active, tree, rank, nextId, tag);
      MarkedTogether(open, active, tree, rank, nextId, tag);
      var e := InsertAnElement(tag);
      MarkerEnters(open, active, tree, rank, nextId);
      InsertMarker();
      FlowIf(mode, open, active, tree, rank, nextId);
    }

    static lemma MarkedIs(s: Snapshot, tag: Tag)
      ensures Marked(s, tag) ==
              Snapshot(Opened(s, tag).open, s.active + [Marker(s.next + 1)], Opened(s, tag).tree, s.next + 2)
      ensures Opened(s, tag).next == s.next + 1
    {
    }

    static lemma EmbeddedIsPlain(n: Name)
      requires IsEmbedded(n)
      ensures IsPlain(n)
    {
    }

    static lemma MarkedTogether(open: Stack, active: Entries, t: Tree, rank: map<NodeId, real>, next: NodeId, tag: Tag)
      requires Sound(open, active, t, rank, next) && open != []
      ensures Balanced(open + [NewElement(next, tag)], active + [Marker(next + 1)])
      ensures Balanced(open + [NewElement(next + 1, tag)], active + [Marker(next)])
    {
      SoundMark(open, active, t, rank, next, tag, Marker(next + 1));
      SoundMark(open, active, t, rank, next, tag, Marker(next));
    }

    static lemma MarkerEnters(open: Stack, active: Entries, t: Tree, rank: map<NodeId, real>, next: NodeId)
      requires Grounded(open, active, t, rank, next)
      ensures Grounded(open, active + [Marker(next)], t, rank, next + 1)
    {
      GroundedEntry(open, active, t, rank, next, Marker(next));
    }

    // An element without contents: inserted and popped again.
    method InsertVoid(tag: Tag) returns (e: Element)
      requires Sound(open, active, tree, rank, nextId) && open != [] && !TakesMarker(tag.name)
      modifies `open, `tree, `rank, `nextId
      ensures open == old(open) && Sound(open, active, tree, rank, nextId)
      ensures e == NewElement(old(nextId), tag) && nextId == old(nextId) + 1
      ensures Top(open).id in old(tree) && tree == Grown(old(tree), Top(open).id, e.id, ElementNode(e))
      ensures Snapshot(open, active, tree, nextId) == Voided(old(Snapshot(open, active, tree, nextId)), tag)
      ensures HeadKept(headElement, open, old(tree), old(rank)) ==> HeadKept(headElement, open, tree, rank)
    {
      hide *;
      VoidedIs(Snapshot(open, active, tree, nextId), tag);
      SoundParts(open, active, tree, rank, nextId);
      VoidKeepsHead(open, active, tree, rank, nextId, tag, headElement);
      e := InsertAnElement(tag);
      PushPop(old(open), e, active, tree, rank, nextId);
      PopCurrentNode();
    }

    static lemma VoidedIs(s: Snapshot, tag: Tag)
      ensures Voided(s, tag) == Snapshot(s.open, Opened(s, tag).active, Opened(s, tag).tree, Opened(s, tag).next)
    {
    }

    static lemma SoundParts(open: Stack, active: Entries, t: Tree, rank: map<NodeId, real>, next: NodeId)
      requires Sound(open, active, t, rank, next)
      ensures Grounded(open, active, t, rank, next) && Balanced(open, active)
    {
      hide Grounded;
      hide Balanced;
    }

    static lemma PushPop(open: Stack, e: Element, active: Entries, t: Tree, rank: map<NodeId, real>, next: NodeId)
      requires Grounded(open + [e], active, t, rank, next) && Balanced(open + [e], active)
      ensures (open + [e])[..|open + [e]| - 1] == open && Sound(open, active, t, rank, next)
    {
      hide Grounded;
      hide Balanced;
      SoundCut(open + [e], active, t, rank, next, |open|);
      assert (open + [e])[..|open|] == open;
    }

    static lemma VoidKeepsHead(open: Stack, active: Entries, t: Tree, rank: map<NodeId, real>, next: NodeId, tag: Tag, head: Option<Element>)
      requires Sound(open, active, t, rank, next) && open != []
      ensures Top(open).id in t && Top(open).id in rank
      ensures HeadKept(head, open, t, rank) ==>
                HeadKept(head, open, Grown(t, Top(open).id, next, ElementNode(NewElement(next, tag))), rank[next := rank[Top(open).id] + 1.0])
      ensures HeadKept(head, open, t, rank) ==>
                HeadKept(head, open + [NewElement(next, tag)], Grown(t, Top(open).id, next, ElementNode(NewElement(next, tag))), rank[next := rank[Top(open).id] + 1.0])
    {
      TopInTree(open, active, t, rank, next);
      LeafKept(open, active, t, rank, next, Top(open).id, ElementNode(NewElement(next, tag)), head);
      hide Sound;
      hide Reaches;
      hide Grown;
    }

    method ReconstructInFlow()
      requires Flowing(mode, open, active, tree, rank, nextId)
      modifies `open, `active, `tree, `rank, `nextId
      ensures Flowing(mode, open, active, tree, rank, nextId)
      ensures Snapshot(open, active, tree, nextId) == Reconstructed(old(Snapshot(open, active, tree, nextId)))
    {
      hide *;
      FlowInside(mode, open, active, tree, rank, nextId);
      ReconstructedFlows(mode, open, active, tree, rank, nextId);
      ReconstructActive();
      SoundParts(open, active, tree, rank, nextId);
      ReconstructedStack(old(Snapshot(open, active, tree, nextId)));
      FlowIf(mode, open, active, tree, rank, nextId);
    }

    static lemma ReconstructedFlows(mode: Mode, open: Stack, active: Entries, t: Tree, rank: map<NodeId, real>, next: NodeId)
      requires Flowing(mode, open, active, t, rank, next)
      ensures ZoneOf(open + NewElements(active, ReopenFrom(active, open), |active|, next)) == Home(mode)
    {
      hide ZoneOf;
      hide Anchor;
      hide ReopenFrom;
      hide Lineage;
      hide Balanced;
      hide IsPlain;
      hide IsFormatting;
      var other := open + NewElements(active, ReopenFrom(active, open), |active|, next);
      forall p | 0 <= p < |active| && active[p].Formatting?
        ensures IsPlain(active[p].tag.name)
      {
        OwnTakesNoMarker(open, active, t, rank, next, p);
      }
      AnchorOfFlow(open);
      assert other[..Anchor(open) + 1] == open[..Anchor(open) + 1];
      forall i | Anchor(open) < i < |other|
        ensures IsPlain(other[i].name)
      {
        if i >= |open| {
          var from, j := ReopenFrom(active, open), i - |open|;
          assert other[i] == NewElements(active, from, |active|, next)[j] == NewElement(next + j, active[from + j].tag);
        }
      }
      SameFlow(open, other);
    }

    static lemma ReconstructedStack(s: Snapshot)
      ensures Reconstructed(s).open == s.open + NewElements(s.active, ReopenFrom(s.active, s.open), |s.active|, s.next)
      ensures s.active == [] ==> Reconstructed(s).active == []
    {
    }

    // White space and other characters in a body; white space after a frameset comes here too.
    method BodyCharacter(data: char) returns (ignored: bool)
      requires Sound(open, active, tree, rank, nextId) && open != []
      requires IsFlow(ZoneOf(open)) || active == []
      modifies `open, `active, `tree, `rank, `nextId, `framesetOk
      ensures Sound(open, active, tree, rank, nextId) && ZoneOf(open) == ZoneOf(old(open))
      ensures old(active) == [] ==> active == []
      ensures ignored <==> data == 0 as char
      ensures Snapshot(open, active, tree, nextId) ==
              if ignored then old(Snapshot(open, active, tree, nextId))
              else Typed(Reconstructed(old(Snapshot(open, active, tree, nextId))), data)
    {
      hide *;
      if data == 0 as char {
        return true;
      }
      CharacterFlows(open, active, tree, rank, nextId);
      ReconstructActive();
      ReconstructedStack(old(Snapshot(open, active, tree, nextId)));
      InsertCharacter(data);
      if !IsWhitespace(data) {
        framesetOk := false;
      }
      return false;
    }

    static lemma CharacterFlows(open: Stack, active: Entries, t: Tree, rank: map<NodeId, real>, next: NodeId)
      requires Sound(open, active, t, rank, next) && open != [] && (IsFlow(ZoneOf(open)) || active == [])
      ensures open + NewElements(active, ReopenFrom(active, open), |active|, next) != []
      ensures ZoneOf(open + NewElements(active, ReopenFrom(active, open), |active|, next)) == ZoneOf(open)
    {
      hide Sound;
      hide NewElements;
      hide ReopenFrom;
      hide ZoneOf;
      if active == [] {
        NothingNew(open, next);
      } else {
        var mode := if ZoneOf(open).BodyZone? then InBody else if ZoneOf(open).CellZone? then InCell else InCaption;
        ReconstructedFlows(mode, open, active, t, rank, next);
      }
    }

    static lemma NothingNew(open: Stack, next: NodeId)
      ensures open + NewElements([], ReopenFrom([], open), 0, next) == open
    {
    }

    // Closes the topmost element with one of the names, all plain, in a scope.
    method CloseInFlow(names: set<Name>, spared: set<Name>, ghost scope: Scope)
      requires Flowing(mode, open, active, tree, rank, nextId) && !scope.TableScope? && InScope(open, names, scope)
      requires forall n :: n in names ==> IsPlain(n) && (!HasImpliedEnd(n) || n in spared)
      modifies `open
      ensures Flowing(mode, open, active, tree, rank, nextId)
      ensures 0 <= Topmost(old(open), names) < |old(open)| && open == old(open)[..Topmost(old(open), names)]
    {
      hide *;
      CutInFlow(mode, open, active, tree, rank, nextId, names, scope);
      CloseElement(names, spared);
    }

    static lemma CutInFlow(mode: Mode, open: Stack, active: Entries, t: Tree, rank: map<NodeId, real>, next: NodeId, names: set<Name>, scope: Scope)
      requires Flowing(mode, open, active, t, rank, next) && !scope.TableScope? && InScope(open, names, scope)
      requires forall n :: n in names ==> IsPlain(n)
      ensures 0 <= Topmost(open, names) < |open|
      ensures Flowing(mode, open[..Topmost(open, names)], active, t, rank, next)
    {
      hide Sound;
      InScopeAboveAnchor(open, names, scope);
      CloseInside(open, active, t, rank, next, Topmost(open, names));
    }

    // The end tag of an applet, marquee or object.
    method CloseMarked(name: Name)
      requires Flowing(mode, open, active, tree, rank, nextId) && IsEmbedded(name) && InScope(open, {name}, Ordinary)
      modifies `open, `active
      ensures Flowing(mode, open, active, tree, rank, nextId)
      ensures 0 <= Topmost(old(open), {name}) && open == old(open)[..Topmost(old(open), {name})]
      ensures 0 <= LastMarker(old(active)) && active == old(active)[..LastMarker(old(active))]
    {
      hide *;
      EmbeddedIsPlain(name);
      EmbeddedTakesMarker(name);
      CutInFlow(mode, open, active, tree, rank, nextId, {name}, Ordinary);
      ClearInFlow(mode, open, active, tree, rank, nextId, Topmost(open, {name}));
      CloseElement({name}, {});
      ClearActiveToLastMarker();
    }

    static lemma EmbeddedTakesMarker(n: Name)
      requires IsEmbedded(n)
      ensures TakesMarker(n) && !HasImpliedEnd(n)
    {
    }

    static lemma ClearInFlow(mode: Mode, open: Stack, active: Entries, t: Tree, rank: map<NodeId, real>, next: NodeId, k: nat)
      requires Flowing(mode, open, active, t, rank, next) && k < |open| && TakesMarker(open[k].name)
      requires Flowing(mode, open[..k], active, t, rank, next)
      ensures 0 <= LastMarker(active)
      ensures Flowing(mode, open[..k], active[..LastMarker(active)], t, rank, next)
    {
      hide Sound;
      SoundClear(open, active, t, rank, next, k);
    }

    method OtherEndTag(tag: Tag) returns (ignored: bool)
      requires Flowing(mode, open, active, tree, rank, nextId)
      requires Anchor(open) < 0 || tag.name != open[Anchor(open)].name
      modifies `open
      ensures Flowing(mode, open, active, tree, rank, nextId) && |open| <= |old(open)|
      ensures ignored <==> OtherMatch(old(open), tag.name) < 0
      ensures open == if ignored then old(open) else old(open)[..OtherMatch(old(open), tag.name)]
    {
      hide *;
      FlowInside(mode, open, active, tree, rank, nextId);
      OtherInFlow(mode, open, active, tree, rank, nextId, tag.name);
      ignored := AnyOtherEndTagInBody(tag);
    }

    static lemma OtherInFlow(mode: Mode, open: Stack, active: Entries, t: Tree, rank: map<NodeId, real>, next: NodeId, name: Name)
      requires Flowing(mode, open, active, t, rank, next) && (Anchor(open) < 0 || name != open[Anchor(open)].name)
      ensures open != [] && IsSpecial(open[0].name)
      ensures OtherMatch(open, name) >= 0 ==> Flowing(mode, open[..OtherMatch(open, name)], active, t, rank, next)
    {
      hide Sound;
      AnchorOfFlow(open);
      OtherInside(open, active, t, rank, next, name);
    }

    // A formatting element, with an entry in the list.
    method InsertFormatting(tag: Tag)
      requires Flowing(mode, open, active, tree, rank, nextId) && IsFormatting(tag.name)
      modifies `open, `active, `tree, `rank, `nextId
      ensures Flowing(mode, open, active, tree, rank, nextId)
      ensures open == old(open) + [NewElement(old(nextId), tag)]
      ensures active == Entered(old(active), Formatting(old(nextId) + 1, NewElement(old(nextId), tag), tag))
      ensures Snapshot(open, active, tree, nextId) == Formatted(old(Snapshot(open, active, tree, nextId)), tag)
    {
      hide *;
      FormattedIs(Snapshot(open, active, tree, nextId), tag);
      FormattingIsPlain(tag.name);
      ghost var open0, next0 := open, nextId;
      NewIsNotListed(mode, open, active, tree, rank, nextId, tag);
      var e := InsertPlain(tag);
      EntryEnters(mode, open, active, tree, rank, nextId, open0, e, tag);
      PushOntoActive(e, tag);
    }

    static lemma FormattedIs(s: Snapshot, tag: Tag)
      ensures Formatted(s, tag) ==
              Snapshot(Opened(s, tag).open, Entered(s.active, Formatting(s.next + 1, NewElement(s.next, tag), tag)), Opened(s, tag).tree, s.next + 2)
      ensures Opened(s, tag).next == s.next + 1
    {
    }

    static lemma FormattingIsPlain(n: Name)
      requires IsFormatting(n)
      ensures IsPlain(n) && !TakesMarker(n) && !n.P?
    {
    }

    static lemma NewIsNotListed(mode: Mode, open: Stack, active: Entries, t: Tree, rank: map<NodeId, real>, next: NodeId, tag: Tag)
      requires Flowing(mode, open, active, t, rank, next)
      ensures !InList(NewElement(next, tag), active)
    {
      NewIsUnknown(open, active, t, rank, next, NewElement(next, tag));
    }

    static lemma EntryEnters(mode: Mode, open: Stack, active: Entries, t: Tree, rank: map<NodeId, real>, next: NodeId, open0: Stack, e: Element, tag: Tag)
      requires Flowing(mode, open, active, t, rank, next) && open == open0 + [e] && IsFormatting(tag.name)
      requires e == NewElement(next - 1, tag) && !InList(e, active)
      ensures Flowing(mode, open, Entered(active, Formatting(next, e, tag)), t, rank, next + 1)
    {
      hide Sound;
      hide ZoneOf;
      hide Kin;
      var f := FamilyOf(e);
      AtMostThree(open, active, t, rank, next, f);
      if Kin(active, f) == 3 {
        var q := Earliest(active, f);
        SoundDrop(open, active, t, rank, next, q);
        StillNotListed(e, active, q);
        KinWithout(active, q, f);
        SoundEntry(open, Removed(active, q), t, rank, next, tag);
      } else {
        SoundEntry(open, active, t, rank, next, tag);
      }
    }

    static lemma AtMostThree(open: Stack, active: Entries, t: Tree, rank: map<NodeId, real>, next: NodeId, f: Family)
      requires Sound(open, active, t, rank, next)
      ensures Kin(active, f) <= 3
    {
      assert active[..|active|] == active;
      hide Lineage;
      hide Balanced;
    }

    static lemma StillNotListed(e: Element, active: Entries, q: nat)
      requires q < |active| && !InList(e, active)
      ensures !InList(e, Removed(active, q))
    {
      var list := Removed(active, q);
      assert forall p :: 0 <= p < |list| ==> list[p] == active[if p < q then p else p + 1];
    }

    // ---------------------------------------------------------------------------------------------
    // Text and the contents of a head

    method SwitchMode(m: Mode)
      modifies `mode, `originalMode
      ensures mode == m && originalMode == if m.Text? || m.InTableText? then old(mode) else old(originalMode)
    {
      if m.Text? || m.InTableText? {
        originalMode := mode;
      }
      mode := m;
    }

    // Whatever follows is text of the new element, up to an end tag.
    method RawText(tag: Tag)
      requires Sound(open, active, tree, rank, nextId) && open != [] && !TakesMarker(tag.name)
      modifies `mode, `originalMode, `open, `tree, `rank, `nextId
      ensures Sound(open, active, tree, rank, nextId) && mode.Text? && originalMode == old(mode)
      ensures open == old(open) + [NewElement(old(nextId), tag)]
      ensures Snapshot(open, active, tree, nextId) == Opened(old(Snapshot(open, active, tree, nextId)), tag)
      ensures HeadKept(headElement, old(open), old(tree), old(rank)) ==> HeadKept(headElement, open, tree, rank)
    {
      hide *;
      SoundParts(open, active, tree, rank, nextId);
      VoidKeepsHead(open, active, tree, rank, nextId, tag, headElement);
      var e := InsertAnElement(tag);
      PartsSound(open, active, tree, rank, nextId);
      SwitchMode(Text);
    }

    static lemma PartsSound(open: Stack, active: Entries, t: Tree, rank: map<NodeId, real>, next: NodeId)
      requires Grounded(open, active, t, rank, next) && Balanced(open, active)
      ensures Sound(open, active, t, rank, next)
    {
      hide Grounded;
      hide Balanced;
    }

    // The start tags that belong in a head, wherever they occur.
    method HeadContent(tag: Tag)
      requires Sound(open, active, tree, rank, nextId) && open != [] && IsHeadContent(tag.name)
      modifies `mode, `originalMode, `open, `tree, `rank, `nextId
      ensures Sound(open, active, tree, rank, nextId)
      ensures TextOrSame(old(mode), old(originalMode), old(open), NewElement(old(nextId), tag), mode, originalMode, open)
      ensures mode == if IsVoidInHead(tag.name) then old(mode) else Text
      ensures Snapshot(open, active, tree, nextId) == HeadStep(old(Snapshot(open, active, tree, nextId)), tag)
      ensures HeadKept(headElement, old(open), old(tree), old(rank)) ==> HeadKept(headElement, open, tree, rank)
    {
      hide Sound;
      hide HeadKept;
      hide TakesMarker;
      hide HoldsNothing;
      HeadContentHolds(tag.name);
      var n := tag.name;
      if n.Base? || n.Basefont? || n.Bgsound? || n.Link? || n.Meta? {
        var _ := InsertVoid(tag);
      } else {
        RawText(tag);
      }
    }

    static lemma HeadContentHolds(n: Name)
      requires IsHeadContent(n)
      ensures !TakesMarker(n) && (HoldsNothing(n) <==> IsVoidInHead(n))
    {
    }

    static ghost predicate TextOrSame(mode0: Mode, original0: Mode, open0: Stack, e: Element, mode: Mode, original: Mode, open: Stack) {
      || (mode == mode0 && original == original0 && open == open0)
      || (mode.Text? && original == mode0 && open == open0 + [e] && !HoldsNothing(e.name))
    }

    static lemma TextRuns(mode0: Mode, original0: Mode, open0: Stack, e: Element, t0: Tree, rank0: map<NodeId, real>,
                          mode: Mode, original: Mode, open: Stack, active: Entries, head: Option<Element>, t: Tree, rank: map<NodeId, real>, next: NodeId)
      requires Settled(mode0, original0, open0, active, head, t0, rank0) && TakesText(mode0)
      requires Sound(open, active, t, rank, next) && TextOrSame(mode0, original0, open0, e, mode, original, open)
      requires HeadKept(head, open0, t0, rank0) ==> HeadKept(head, open, t, rank)
      ensures Running(mode, original, open, active, head, t, rank, next)
    {
      hide Sound;
      hide HeadKept;
      hide ZoneOf;
      assert (open0 + [e])[..|open0 + [e]| - 1] == open0;
    }

    static lemma FlowRuns(mode: Mode, original: Mode, open: Stack, active: Entries, head: Option<Element>, t: Tree, rank: map<NodeId, real>, next: NodeId)
      requires Flowing(mode, open, active, t, rank, next)
      ensures Running(mode, original, open, active, head, t, rank, next) && Settled(mode, original, open, active, head, t, rank)
      ensures TakesText(mode) && open != [] && Sound(open, active, t, rank, next)
    {
      FlowingRuns(mode, original, open, active, head, t, rank, next);
      hide Sound;
      hide ZoneOf;
    }

    // ---------------------------------------------------------------------------------------------
    // Start tags in a body that simulate no other token

    // A token is dealt with and the mode is the same.
    static lemma FlowDone(token: Token, ignored: bool, mode: Mode, original: Mode, open0: Stack, open: Stack, active: Entries,
                          head: Option<Element>, t: Tree, rank: map<NodeId, real>, next: NodeId)
      requires Flowing(mode, open, active, t, rank, next) && !token.EndOfFile?
      requires token.StartTag? && IsTablePart(token.tag.name) ==> mode.InBody?
      requires token.EndTag? ==> ReachesBody(mode, token.tag.name) && !token.tag.name.Body?
      ensures Handled(token, Done(ignored), mode, open0, mode, original, open, active, head, t, rank, next)
    {
      FlowRuns(mode, original, open, active, head, t, rank, next);
      hide Running;
      hide Sound;
      hide ZoneOf;
      hide InScope;
      hide Topmost;
      hide Settled;
    }

    // A start tag is dealt with and the mode may have changed.
    static lemma ElseDone(tag: Tag, ignored: bool, mode0: Mode, open0: Stack, mode: Mode, original: Mode, open: Stack, active: Entries,
                          head: Option<Element>, t: Tree, rank: map<NodeId, real>, next: NodeId)
      requires Running(mode, original, open, active, head, t, rank, next) && IsBodyMode(mode0) && !IsTablePart(tag.name)
      ensures Handled(StartTag(tag), Done(ignored), mode0, open0, mode, original, open, active, head, t, rank, next)
    {
      hide Running;
    }

    static lemma FailedDone(token: Token, fault: Fault, mode0: Mode, open0: Stack, mode: Mode, original: Mode, open: Stack, active: Entries,
                            head: Option<Element>, t: Tree, rank: map<NodeId, real>, next: NodeId)
      requires Running(mode, original, open, active, head, t, rank, next) && MayFail(token) && IsBodyMode(mode0)
      ensures Handled(token, Failed(fault), mode0, open0, mode, original, open, active, head, t, rank, next)
    {
      hide Running;
    }

    // Where no token of the kind can fail.
    static lemma HandledNoFault(token: Token, out: Outcome, mode0: Mode, s0: Snapshot, mode: Mode, original: Mode, s: Snapshot, head: Option<Element>,
                                rank: map<NodeId, real>)
      requires Handled(token, out, mode0, s0.open, mode, original, s.open, s.active, head, s.tree, rank, s.next) && !MayFailIn(mode0, token)
      ensures FaultIs(token, out, mode0, s0, mode, s)
    {
      hide Running;
      hide Sound;
      hide Smaller;
      hide Need;
      hide FaultIs;
      NoFault(token, out, mode0, s0, mode, s);
    }

    method BodyVoid(tag: Tag)
      requires Flowing(mode, open, active, tree, rank, nextId) && !TakesMarker(tag.name)
      modifies `open, `active, `tree, `rank, `nextId, `framesetOk
      ensures Flowing(mode, open, active, tree, rank, nextId) && !framesetOk
      ensures Snapshot(open, active, tree, nextId) == Voided(Reconstructed(old(Snapshot(open, active, tree, nextId))), tag)
    {
      hide *;
      ReconstructInFlow();
      VoidInFlow(tag);
      framesetOk := false;
    }

    method VoidInFlow(tag: Tag)
      requires Flowing(mode, open, active, tree, rank, nextId) && !TakesMarker(tag.name)
      modifies `open, `tree, `rank, `nextId
      ensures Flowing(mode, open, active, tree, rank, nextId)
      ensures Snapshot(open, active, tree, nextId) == Voided(old(Snapshot(open, active, tree, nextId)), tag)
    {
      hide *;
      FlowInside(mode, open, active, tree, rank, nextId);
      var _ := InsertVoid(tag);
      SoundParts(open, active, tree, rank, nextId);
      FlowIf(mode, open, active, tree, rank, nextId);
    }

    method BodyInput(tag: Tag)
      requires Flowing(mode, open, active, tree, rank, nextId) && !TakesMarker(tag.name)
      modifies `open, `active, `tree, `rank, `nextId, `framesetOk
      ensures Flowing(mode, open, active, tree, rank, nextId)
      ensures Snapshot(open, active, tree, nextId) == Voided(Reconstructed(old(Snapshot(open, active, tree, nextId))), tag)
      ensures framesetOk == (old(framesetOk) && "type" in tag.attributes && !IsHiddenType(tag.attributes))
    {
      hide *;
      ReconstructInFlow();
      VoidInFlow(tag);
      if "type" !in tag.attributes || IsHiddenType(tag.attributes) {
        framesetOk := false;
      }
    }

    method BodyFormatting(tag: Tag)
      requires Flowing(mode, open, active, tree, rank, nextId) && IsFormatting(tag.name)
      modifies `open, `active, `tree, `rank, `nextId
      ensures Flowing(mode, open, active, tree, rank, nextId)
      ensures Snapshot(open, active, tree, nextId) == Formatted(Reconstructed(old(Snapshot(open, active, tree, nextId))), tag)
    {
      hide *;
      ReconstructInFlow();
      InsertFormatting(tag);
    }

    method BodyEmbedded(tag: Tag)
      requires Flowing(mode, open, active, tree, rank, nextId) && IsEmbedded(tag.name)
      modifies `open, `active, `tree, `rank, `nextId, `framesetOk
      ensures Flowing(mode, open, active, tree, rank, nextId) && !framesetOk
      ensures Snapshot(open, active, tree, nextId) == Marked(Reconstructed(old(Snapshot(open, active, tree, nextId))), tag)
    {
      hide *;
      ReconstructInFlow();
      InsertMarked(tag);
      framesetOk := false;
    }

    method BodyOther(tag: Tag)
      requires Flowing(mode, open, active, tree, rank, nextId) && IsPlain(tag.name) && !TakesMarker(tag.name)
      modifies `open, `active, `tree, `rank, `nextId
      ensures Flowing(mode, open, active, tree, rank, nextId)
      ensures Snapshot(open, active, tree, nextId) == Opened(Reconstructed(old(Snapshot(open, active, tree, nextId))), tag)
    {
      hide *;
      ReconstructInFlow();
      var _ := InsertPlain(tag);
    }

    method BodyRuby(tag: Tag)
      requires Flowing(mode, open, active, tree, rank, nextId) && IsPlain(tag.name) && !TakesMarker(tag.name)
      modifies `open, `tree, `rank, `nextId
      ensures Flowing(mode, open, active, tree, rank, nextId)
      ensures Snapshot(open, active, tree, nextId) == Opened(WithoutImplied(old(Snapshot(open, active, tree, nextId))), tag)
    {
      hide *;
      WithoutImpliedIs(Snapshot(open, active, tree, nextId));
      var inRuby := HasElementInScope({Ruby}, Ordinary);
      if inRuby {
        ImpliedInFlow(mode, open, active, tree, rank, nextId);
        GenerateImpliedEndTags({});
      }
      var _ := InsertPlain(tag);
    }

    static lemma WithoutImpliedIs(s: Snapshot)
      ensures WithoutImplied(s) == Snapshot(if InScope(s.open, {Ruby}, Ordinary) then s.open[..ImpliedCut(s.open, {})] else s.open, s.active, s.tree, s.next)
    {
      hide InScope;
    }

    static lemma ImpliedInFlow(mode: Mode, open: Stack, active: Entries, t: Tree, rank: map<NodeId, real>, next: NodeId)
      requires Flowing(mode, open, active, t, rank, next)
      ensures 0 < ImpliedCut(open, {}) && Flowing(mode, open[..ImpliedCut(open, {})], active, t, rank, next)
    {
      hide Sound;
      hide ZoneOf;
      AnchorOfFlow(open);
      assert !HasImpliedEnd(open[Anchor(open)].name);
      CloseInside(open, active, t, rank, next, ImpliedCut(open, {}));
    }

    // Raw text in a body: textarea, iframe, noembed and noscript.
    method BodyRawText(tag: Tag)
      requires Flowing(mode, open, active, tree, rank, nextId) && !TakesMarker(tag.name) && !HoldsNothing(tag.name)
      modifies `mode, `originalMode, `open, `tree, `rank, `nextId
      ensures Running(mode, originalMode, open, active, headElement, tree, rank, nextId) && mode.Text? && originalMode == old(mode)
      ensures Snapshot(open, active, tree, nextId) == Opened(old(Snapshot(open, active, tree, nextId)), tag)
    {
      hide *;
      FlowRuns(mode, originalMode, open, active, headElement, tree, rank, nextId);
      ghost var mode0, original0, open0, tree0, rank0, next0 := mode, originalMode, open, tree, rank, nextId;
      RawText(tag);
      TextOpened(mode0, original0, open0, next0, tag, mode, originalMode, open);
      TextRuns(mode0, original0, open0, NewElement(next0, tag), tree0, rank0, mode, originalMode, open, active, headElement, tree, rank, nextId);
    }

    static lemma TextOpened(mode0: Mode, original0: Mode, open0: Stack, id: NodeId, tag: Tag, mode: Mode, original: Mode, open: Stack)
      requires mode.Text? && original == mode0 && open == open0 + [NewElement(id, tag)] && !HoldsNothing(tag.name)
      ensures TextOrSame(mode0, original0, open0, NewElement(id, tag), mode, original, open)
    {
      hide HoldsNothing;
    }

    static lemma TextHolders(n: Name)
      requires n.Textarea? || n.Iframe? || n.Noembed? || n.Noscript? || n.Xmp?
      ensures !HoldsNothing(n)
    {
    }

    // Head content in a body or a cell.
    method BodyHeadContent(tag: Tag)
      requires Flowing(mode, open, active, tree, rank, nextId) && IsHeadContent(tag.name)
      modifies `mode, `originalMode, `open, `tree, `rank, `nextId
      ensures Running(mode, originalMode, open, active, headElement, tree, rank, nextId)
      ensures mode == if IsVoidInHead(tag.name) then old(mode) else Text
      ensures Snapshot(open, active, tree, nextId) == HeadStep(old(Snapshot(open, active, tree, nextId)), tag)
    {
      hide *;
      FlowRuns(mode, originalMode, open, active, headElement, tree, rank, nextId);
      ghost var mode0, original0, open0, tree0, rank0, next0 := mode, originalMode, open, tree, rank, nextId;
      HeadContent(tag);
      TextRuns(mode0, original0, open0, NewElement(next0, tag), tree0, rank0, mode, originalMode, open, active, headElement, tree, rank, nextId);
    }

    method BodySelect(tag: Tag)
      requires Flowing(mode, open, active, tree, rank, nextId) && tag.name.Select?
      modifies `mode, `open, `active, `tree, `rank, `nextId, `framesetOk
      ensures Running(mode, originalMode, open, active, headElement, tree, rank, nextId) && IsSelectMode(mode) && !framesetOk
      ensures mode == if old(mode).InBody? then InSelect else InSelectInTable
      ensures Snapshot(open, active, tree, nextId) == Opened(Reconstructed(old(Snapshot(open, active, tree, nextId))), tag)
    {
      hide *;
      ReconstructInFlow();
      FlowInside(mode, open, active, tree, rank, nextId);
      BodyModes(mode);
      SelectZoneOpens(open, nextId, tag);
      var e := InsertAnElement(tag);
      framesetOk := false;
      var inTable := mode.InTable? || mode.InCaption? || mode.InTableBody? || mode.InRow? || mode.InCell?;
      mode := if inTable then InSelectInTable else InSelect;
      SelectRuns(mode, originalMode, open, active, headElement, tree, rank, nextId);
    }

    static lemma BodyModes(mode: Mode)
      requires IsBodyMode(mode)
      ensures mode.InBody? || mode.InCell? || mode.InCaption?
    {
    }

    static lemma SelectZoneOpens(open: Stack, next: NodeId, tag: Tag)
      requires IsFlow(ZoneOf(open)) && tag.name.Select?
      ensures ZoneOf(open + [NewElement(next, tag)]) == SelectZone && !TakesMarker(tag.name)
    {
      assert Below(open + [NewElement(next, tag)]) == open;
    }

    static lemma SelectRuns(mode: Mode, original: Mode, open: Stack, active: Entries, head: Option<Element>, t: Tree, rank: map<NodeId, real>, next: NodeId)
      requires Grounded(open, active, t, rank, next) && Balanced(open, active) && ZoneOf(open) == SelectZone
      requires mode.InSelect? || mode.InSelectInTable?
      ensures Running(mode, original, open, active, head, t, rank, next) && IsSelectMode(mode)
    {
      hide Grounded;
      hide Balanced;
      hide ZoneOf;
    }

    method BodySimpleStartTag(tag: Tag) returns (out: Outcome)
      requires Flowing(mode, open, active, tree, rank, nextId) && !Simulates(tag.name) && (IsTablePart(tag.name) ==> mode.InBody?)
      modifies this
      ensures Handled(StartTag(tag), out, old(mode), old(open), mode, originalMode, open, active, headElement, tree, rank, nextId)
      ensures BodyEffect(StartTag(tag), out, old(mode), old(Snapshot(open, active, tree, nextId)), old(quirks), scriptingFlag, old(formElement),
                         mode, Snapshot(open, active, tree, nextId), formElement)
      ensures FaultIs(StartTag(tag), out, old(mode), old(Snapshot(open, active, tree, nextId)), mode, Snapshot(open, active, tree, nextId))
    {
      hide *;
      var n := tag.name;
      ghost var mode0, s0, form0 := mode, Snapshot(open, active, tree, nextId), formElement;
      SimpleStep(tag, mode0, s0, quirks, scriptingFlag, form0);
      FlowRuns(mode, originalMode, open, active, headElement, tree, rank, nextId);
      FlowInside(mode, open, active, tree, rank, nextId);
      out := Done(false);
      if n.Dd? || n.Dt? || n.Math? || n.Svg? {
        out := BodyUnmodelled(tag);
        return;
      }
      if IsHeadContent(n) {
        BodyHeadContent(tag);
      } else if n.Textarea? {
        TextHolders(n);
        framesetOk, ignoreLineFeed := false, true;
        BodyRawText(tag);
      } else if n.Iframe? || n.Noembed? || (n.Noscript? && scriptingFlag) {
        TextHolders(n);
        framesetOk := if n.Iframe? then false else framesetOk;
        BodyRawText(tag);
      } else if n.Select? {
        BodySelect(tag);
      } else {
        out := BodyFlowStartTag(tag);
        HandledNoFault(StartTag(tag), out, mode0, s0, mode, originalMode, Snapshot(open, active, tree, nextId), headElement, rank);
        return;
      }
      StartEffect(tag, false, mode0, s0, old(quirks), scriptingFlag, form0, mode, Snapshot(open, active, tree, nextId), formElement);
      ElseDone(tag, false, mode0, s0.open, mode, originalMode, open, active, headElement, tree, rank, nextId);
      HandledNoFault(StartTag(tag), out, mode0, s0, mode, originalMode, Snapshot(open, active, tree, nextId), headElement, rank);
    }

    static lemma SimpleStep(tag: Tag, mode: Mode, s: Snapshot, quirks: bool, scripting: bool, form: Option<FormElement>)
      requires !Simulates(tag.name)
      ensures var n := tag.name;
              var text := n.Textarea? || n.Iframe? || n.Noembed? || (n.Noscript? && scripting);
              && (IsHeadContent(n) || text || n.Select? ==> !TakesMarker(n) && !IsTablePart(n))
              && (!(n.Dd? || n.Dt? || n.Math? || n.Svg? || IsHeadContent(n) || text || n.Select?) ==> IsFlowStart(n, scripting))
              && (!(n.Dd? || n.Dt? || n.Math? || n.Svg?) ==> !MayFailIn(mode, StartTag(tag)))
              && FormAfter(StartTag(tag), s, form) == form
              && (IsHeadContent(n) ==>
                    && StartStep(tag, s, quirks, scripting, form) == HeadStep(s, tag)
                    && ModeAfter(StartTag(tag), mode, scripting) == if IsVoidInHead(n) then mode else Text)
              && (text && !IsHeadContent(n) ==>
                    StartStep(tag, s, quirks, scripting, form) == Opened(s, tag) && ModeAfter(StartTag(tag), mode, scripting) == Text)
              && (n.Select? ==>
                    && StartStep(tag, s, quirks, scripting, form) == Opened(Reconstructed(s), tag)
                    && ModeAfter(StartTag(tag), mode, scripting) == if mode.InBody? then InSelect else InSelectInTable)
    {
      hide *;
      SimpleNames(tag, mode, s, scripting, form);
      if IsHeadContent(tag.name) {
        ContentOpens(tag.name);
        StartStepIs(tag, s, quirks, scripting, form);
        ModeAfterIs(tag, mode, scripting);
      } else if tag.name.Textarea? || tag.name.Iframe? || tag.name.Noembed? || tag.name.Noscript? || tag.name.Select? {
        TextOpens(tag.name, scripting);
        StartStepIs(tag, s, quirks, scripting, form);
        ModeAfterIs(tag, mode, scripting);
      }
    }

    static lemma SimpleNames(tag: Tag, mode: Mode, s: Snapshot, scripting: bool, form: Option<FormElement>)
      requires !Simulates(tag.name)
      ensures var n := tag.name;
              var text := n.Textarea? || n.Iframe? || n.Noembed? || (n.Noscript? && scripting);
              && (IsHeadContent(n) || text || n.Select? ==> !TakesMarker(n) && !IsTablePart(n))
              && (!(n.Dd? || n.Dt? || n.Math? || n.Svg? || IsHeadContent(n) || text || n.Select?) ==> IsFlowStart(n, scripting))
              && (!(n.Dd? || n.Dt? || n.Math? || n.Svg?) ==> !MayFailIn(mode, StartTag(tag)))
              && FormAfter(StartTag(tag), s, form) == form
    {
    }

    static lemma ContentOpens(n: Name)
      requires IsHeadContent(n)
      ensures !OpensNothing(n) && !n.Table? && !n.Select? && forall scripting :: OpensText(n, scripting) <==> !IsVoidInHead(n)
    {
    }

    static lemma TextOpens(n: Name, scripting: bool)
      requires n.Textarea? || n.Iframe? || n.Noembed? || n.Noscript? || n.Select?
      ensures !OpensNothing(n) && !IsHeadContent(n) && !IsQuietVoid(n) && !IsVoid(n) && !IsFormatting(n) && !IsEmbedded(n) && !IsHeading(n)
      ensures !OpensAlone(n) && (OpensText(n, scripting) <==> !n.Select? && (n.Noscript? ==> scripting))
    {
    }

    static lemma ModeAfterIs(tag: Tag, mode: Mode, scripting: bool)
      ensures ModeAfter(StartTag(tag), mode, scripting) ==
              if tag.name.Table? then InTable
              else if tag.name.Select? then (if mode.InBody? then InSelect else InSelectInTable)
              else if OpensText(tag.name, scripting) then Text
              else mode
    {
      hide OpensText;
    }

    static lemma EffectAgain(token: Token, again: Token, mode0: Mode, s0: Snapshot, quirks: bool, scripting: bool, form0: Option<FormElement>,
                             mode: Mode, s: Snapshot, form: Option<FormElement>)
      requires SameStep(token, mode0, s0, quirks, scripting, form0, again, mode, s, form)
      ensures BodyEffect(token, Reprocess(again), mode0, s0, quirks, scripting, form0, mode, s, form)
    {
      hide SameStep;
      hide HasStep;
    }

    static lemma EffectFailed(token: Token, fault: Fault, mode: Mode, s0: Snapshot, quirks: bool, scripting: bool, form: Option<FormElement>, s: Snapshot)
      requires s == FailedStep(token, s0)
      ensures BodyEffect(token, Failed(fault), mode, s0, quirks, scripting, form, mode, s, form)
    {
      hide FailedStep;
      hide HasStep;
    }

    static lemma FailedStepIs(token: Token, s: Snapshot)
      ensures FailedStep(token, s) == if token.StartTag? && token.tag.name.Nobr? then Reconstructed(s) else s
    {
    }

    static lemma StartEffect(tag: Tag, ignored: bool, mode0: Mode, s0: Snapshot, quirks: bool, scripting: bool, form0: Option<FormElement>,
                             mode: Mode, s: Snapshot, form: Option<FormElement>)
      requires s == StartStep(tag, s0, quirks, scripting, form0) && form == FormAfter(StartTag(tag), s0, form0)
      requires mode == ModeAfter(StartTag(tag), mode0, scripting)
      ensures BodyEffect(StartTag(tag), Done(ignored), mode0, s0, quirks, scripting, form0, mode, s, form)
    {
      hide StartStep;
      hide FormAfter;
      hide ModeAfter;
    }

    // Branches left out of this model: dd and dt start tags where a dd, a dt or a p is to be closed, and
    // foreign content.
    method BodyUnmodelled(tag: Tag) returns (out: Outcome)
      requires Flowing(mode, open, active, tree, rank, nextId) && (tag.name.Dd? || tag.name.Dt? || tag.name.Math? || tag.name.Svg?)
      modifies `open, `tree, `rank, `nextId, `framesetOk
      ensures Handled(StartTag(tag), out, old(mode), old(open), mode, originalMode, open, active, headElement, tree, rank, nextId)
      ensures BodyEffect(StartTag(tag), out, mode, old(Snapshot(open, active, tree, nextId)), quirks, scriptingFlag, formElement,
                         mode, Snapshot(open, active, tree, nextId), formElement)
      ensures FaultIs(StartTag(tag), out, mode, old(Snapshot(open, active, tree, nextId)), mode, Snapshot(open, active, tree, nextId))
    {
      hide *;
      ghost var s0 := Snapshot(open, active, tree, nextId);
      FlowInside(mode, open, active, tree, rank, nextId);
      UnmodelledStep(tag, mode, s0, quirks, scriptingFlag, formElement);
      FlowRuns(mode, originalMode, open, active, headElement, tree, rank, nextId);
      out := Failed(NotModelled);
      if tag.name.Dd? || tag.name.Dt? {
        framesetOk := false;
        var within := FindDefinition();
        var inScope := HasElementInScope({P}, ButtonScope);
        if !within && !inScope {
          var _ := InsertPlain(tag);
          out := Done(false);
          StartEffect(tag, false, mode, s0, quirks, scriptingFlag, formElement, mode, Snapshot(open, active, tree, nextId), formElement);
          FlowDone(StartTag(tag), false, mode, originalMode, s0.open, open, active, headElement, tree, rank, nextId);
          return;
        }
      }
      FailedDone(StartTag(tag), NotModelled, mode, s0.open, mode, originalMode, open, active, headElement, tree, rank, nextId);
    }

    static lemma UnmodelledStep(tag: Tag, mode: Mode, s: Snapshot, quirks: bool, scripting: bool, form: Option<FormElement>)
      requires IsBodyMode(mode) && (tag.name.Dd? || tag.name.Dt? || tag.name.Math? || tag.name.Svg?)
      ensures IsPlain(tag.name) && !TakesMarker(tag.name) && MayFail(StartTag(tag)) && !IsTablePart(tag.name)
      ensures FormAfter(StartTag(tag), s, form) == form && ModeAfter(StartTag(tag), mode, scripting) == mode
      ensures tag.name.Dd? || tag.name.Dt? ==> StartStep(tag, s, quirks, scripting, form) == Opened(s, tag)
      ensures BodyEffect(StartTag(tag), Failed(NotModelled), mode, s, quirks, scripting, form, mode, s, form)
      ensures forall after :: FaultIs(StartTag(tag), Failed(NotModelled), mode, s, mode, after) <==>
                tag.name.Math? || tag.name.Svg? || InDefinition(s.open) || InScope(s.open, {P}, ButtonScope)
      ensures forall after :: FaultIs(StartTag(tag), Done(false), mode, s, mode, after) <==>
                (tag.name.Dd? || tag.name.Dt?) && !InDefinition(s.open) && !InScope(s.open, {P}, ButtonScope)
    {
      hide *;
      UnmodelledNames(tag, mode, scripting);
      UnmodelledFaults(tag, mode, s);
      FormIsKept(tag, s, form);
      StartStepIs(tag, s, quirks, scripting, form);
      FailedStepIs(StartTag(tag), s);
      EffectFailed(StartTag(tag), NotModelled, mode, s, quirks, scripting, form, s);
    }

    static lemma UnmodelledNames(tag: Tag, mode: Mode, scripting: bool)
      requires tag.name.Dd? || tag.name.Dt? || tag.name.Math? || tag.name.Svg?
      ensures IsPlain(tag.name) && !TakesMarker(tag.name) && MayFail(StartTag(tag)) && !IsTablePart(tag.name)
      ensures ModeAfter(StartTag(tag), mode, scripting) == mode
      ensures !OpensNothing(tag.name) && !IsHeadContent(tag.name) && !IsQuietVoid(tag.name) && !IsVoid(tag.name) && !IsFormatting(tag.name)
      ensures !IsEmbedded(tag.name) && !OpensAlone(tag.name) && !IsHeading(tag.name)
    {
    }

    static lemma UnmodelledFaults(tag: Tag, mode: Mode, s: Snapshot)
      requires IsBodyMode(mode) && (tag.name.Dd? || tag.name.Dt? || tag.name.Math? || tag.name.Svg?)
      ensures forall after :: FaultIs(StartTag(tag), Failed(NotModelled), mode, s, mode, after) <==>
                tag.name.Math? || tag.name.Svg? || InDefinition(s.open) || InScope(s.open, {P}, ButtonScope)
      ensures forall after :: FaultIs(StartTag(tag), Done(false), mode, s, mode, after) <==>
                (tag.name.Dd? || tag.name.Dt?) && !InDefinition(s.open) && !InScope(s.open, {P}, ButtonScope)
    {
      hide InDefinition;
      hide InScope;
      hide AgencyFails;
    }

    method FindDefinition() returns (found: bool)
      ensures found == InDefinition(open)
    {
      var i := |open|;
      while i > 0
        invariant 0 <= i <= |open|
        invariant forall j :: i <= j < |open| ==> !(open[j].name.Dd? || open[j].name.Dt?) && !EndsSearch(open[j].name)
      {
        i := i - 1;
        if open[i].name.Dd? || open[i].name.Dt? {
          return true;
        }
        if EndsSearch(open[i].name) {
          return false;
        }
      }
      return false;
    }

    // The remaining ones, after which the mode is as before.
    method BodyFlowStartTag(tag: Tag) returns (out: Outcome)
      requires Flowing(mode, open, active, tree, rank, nextId) && IsFlowStart(tag.name, scriptingFlag) && (IsTablePart(tag.name) ==> mode.InBody?)
      modifies `open, `active, `tree, `rank, `nextId, `framesetOk
      ensures Handled(StartTag(tag), out, mode, old(open), mode, originalMode, open, active, headElement, tree, rank, nextId)
      ensures BodyEffect(StartTag(tag), out, mode, old(Snapshot(open, active, tree, nextId)), quirks, scriptingFlag, formElement,
                         mode, Snapshot(open, active, tree, nextId), formElement)
    {
      hide *;
      var n := tag.name;
      var ignored := false;
      ghost var s0 := Snapshot(open, active, tree, nextId);
      FlowStep(tag, mode, s0, quirks, scriptingFlag, formElement);
      FlowInside(mode, open, active, tree, rank, nextId);
      if n.Image? {
        out := Reprocess(StartTag(tag.(name := Img)));
        ImageAgain(tag, mode, originalMode, open, active, headElement, tree, rank, nextId);
        return;
      }
      if n.Html? {
      } else if n.Body? {
        if |open| == 1 || !open[1].name.Body? {
          ignored := true;
        } else {
          framesetOk := false;
        }
      } else if n.Frameset? {
        ignored := |open| == 1 || !open[1].name.Body? || !framesetOk;
      } else if IsTablePart(n) || n.Frame? || n.Head? {
        ignored := true;
      } else {
        BodyInserted(tag);
      }
      out := Done(ignored);
      StartEffect(tag, ignored, mode, s0, quirks, scriptingFlag, formElement, mode, Snapshot(open, active, tree, nextId), formElement);
      FlowDone(StartTag(tag), ignored, mode, originalMode, s0.open, open, active, headElement, tree, rank, nextId);
    }

    // Those that insert an element.
    method BodyInserted(tag: Tag)
      requires Flowing(mode, open, active, tree, rank, nextId) && IsFlowStart(tag.name, scriptingFlag) && !OpensNothing(tag.name) && !tag.name.Image?
      modifies `open, `active, `tree, `rank, `nextId, `framesetOk
      ensures Flowing(mode, open, active, tree, rank, nextId)
      ensures Snapshot(open, active, tree, nextId) == StartStep(tag, old(Snapshot(open, active, tree, nextId)), quirks, scriptingFlag, formElement)
    {
      hide *;
      FlowStep(tag, mode, Snapshot(open, active, tree, nextId), quirks, scriptingFlag, formElement);
      if IsFormatting(tag.name) {
        BodyFormatting(tag);
      } else if IsEmbedded(tag.name) {
        BodyEmbedded(tag);
      } else if IsVoid(tag.name) {
        BodyVoid(tag);
      } else if tag.name.Input? {
        BodyInput(tag);
      } else if IsQuietVoid(tag.name) {
        VoidInFlow(tag);
      } else if tag.name.Rp? || tag.name.Rt? {
        BodyRuby(tag);
      } else {
        BodyOther(tag);
      }
    }

    // Start tags that simulate nothing and do not leave the body.
    static predicate IsFlowStart(n: Name, scripting: bool) {
      && !Simulates(n) && !n.Dd? && !n.Dt? && !n.Math? && !n.Svg? && !IsHeadContent(n) && !n.Textarea? && !n.Iframe?
      && !n.Noembed? && !(n.Noscript? && scripting) && !n.Select?
    }

    static lemma FlowStep(tag: Tag, mode: Mode, s: Snapshot, quirks: bool, scripting: bool, form: Option<FormElement>)
      requires IsFlowStart(tag.name, scripting)
      ensures FormAfter(StartTag(tag), s, form) == form && ModeAfter(StartTag(tag), mode, scripting) == mode
      ensures var n := tag.name;
              var step := StartStep(tag, s, quirks, scripting, form);
              && (n.Html? || n.Body? || n.Frameset? || IsTablePart(n) || n.Frame? || n.Head? ==> step == s)
              && (IsFormatting(n) ==> step == Formatted(Reconstructed(s), tag))
              && (IsEmbedded(n) ==> step == Marked(Reconstructed(s), tag))
              && (IsVoid(n) || n.Input? ==> step == Voided(Reconstructed(s), tag) && !TakesMarker(n))
              && (IsQuietVoid(n) ==> step == Voided(s, tag) && !TakesMarker(n))
              && (n.Rp? || n.Rt? ==> step == Opened(WithoutImplied(s), tag) && IsPlain(n) && !TakesMarker(n))
              && (!(OpensNothing(n) || IsFormatting(n) || IsEmbedded(n) || IsVoid(n) || n.Input? || IsQuietVoid(n) || n.Rp? || n.Rt? || n.Image?) ==>
                    step == Opened(Reconstructed(s), tag) && IsPlain(n) && !TakesMarker(n))
              && (n.Image? ==> BodyEffect(StartTag(tag), Reprocess(StartTag(tag.(name := Img))), mode, s, quirks, scripting, form, mode, s, form))
      ensures OpensNothing(tag.name) <==>
                tag.name.Html? || tag.name.Body? || tag.name.Frameset? || tag.name.Frame? || tag.name.Head? || IsTablePart(tag.name)
    {
      hide *;
      OpensNothingIs(tag.name);
      FlowNames(tag, mode, s, scripting, form);
      FlowClasses(tag.name, scripting);
      FlowIsPlain(tag.name, scripting);
      StartStepIs(tag, s, quirks, scripting, form);
      if tag.name.Image? {
        ImageEffect(tag, mode, s, quirks, scripting, form);
      }
    }

    static lemma FlowNames(tag: Tag, mode: Mode, s: Snapshot, scripting: bool, form: Option<FormElement>)
      requires IsFlowStart(tag.name, scripting)
      ensures FormAfter(StartTag(tag), s, form) == form && ModeAfter(StartTag(tag), mode, scripting) == mode
    {
    }

    // The classes of start tags exclude each other.
    static lemma FlowClasses(n: Name, scripting: bool)
      requires IsFlowStart(n, scripting)
      ensures !IsHeadContent(n) && !n.Hr? && !n.A? && !n.Nobr? && !OpensAlone(n) && !IsHeading(n) && !n.Li? && !n.Table? && !n.Form? && !n.Isindex?
      ensures !n.Button? && !n.OptionName? && !n.Optgroup? && !n.Xmp? && !OpensText(n, scripting) && !n.Dd? && !n.Dt?
      ensures IsFormatting(n) || IsEmbedded(n) || n.Rp? || n.Rt? ==> !OpensNothing(n) && !IsQuietVoid(n) && !IsVoid(n) && !n.Input? && !n.Image?
      ensures IsEmbedded(n) ==> !IsFormatting(n)
      ensures IsVoid(n) || n.Input? ==> !OpensNothing(n) && !IsQuietVoid(n)
      ensures IsQuietVoid(n) ==> !OpensNothing(n)
      ensures n.Rp? || n.Rt? ==> !IsFormatting(n) && !IsEmbedded(n)
    {
      hide *;
      FlowSimulates(n, scripting);
      if IsFormatting(n) || IsEmbedded(n) || n.Rp? || n.Rt? {
        FormattingClass(n);
      }
      if IsVoid(n) || n.Input? || IsQuietVoid(n) {
        VoidClass(n);
      }
    }

    static lemma FlowSimulates(n: Name, scripting: bool)
      requires IsFlowStart(n, scripting)
      ensures !IsHeadContent(n) && !n.Hr? && !n.A? && !n.Nobr? && !OpensAlone(n) && !IsHeading(n) && !n.Li? && !n.Table? && !n.Form? && !n.Isindex?
      ensures !n.Button? && !n.OptionName? && !n.Optgroup? && !n.Xmp? && !OpensText(n, scripting) && !n.Dd? && !n.Dt?
    {
      hide IsBlock;
      hide IsHeading;
      hide IsHeadContent;
    }

    static lemma FormattingClass(n: Name)
      requires IsFormatting(n) || IsEmbedded(n) || n.Rp? || n.Rt?
      ensures !OpensNothing(n) && !IsQuietVoid(n) && !IsVoid(n) && !n.Input? && !n.Image?
      ensures IsEmbedded(n) || n.Rp? || n.Rt? ==> !IsFormatting(n)
      ensures n.Rp? || n.Rt? ==> !IsEmbedded(n)
    {
    }

    static lemma VoidClass(n: Name)
      requires IsVoid(n) || n.Input? || IsQuietVoid(n)
      ensures !OpensNothing(n) && (IsVoid(n) || n.Input? ==> !IsQuietVoid(n))
    {
    }

    static lemma FlowIsPlain(n: Name, scripting: bool)
      requires IsFlowStart(n, scripting)
      ensures IsVoid(n) || n.Input? || IsQuietVoid(n) ==> !TakesMarker(n)
      ensures n.Rp? || n.Rt? ==> IsPlain(n) && !TakesMarker(n)
      ensures !OpensNothing(n) && !IsEmbedded(n) ==> !TakesMarker(n)
      ensures !OpensNothing(n) && !IsVoid(n) && !n.Input? && !IsQuietVoid(n) && !n.Image? ==> IsPlain(n)
    {
    }

    // An image start tag is taken for an img start tag.
    static lemma ImageEffect(tag: Tag, mode: Mode, s: Snapshot, quirks: bool, scripting: bool, form: Option<FormElement>)
      requires tag.name.Image?
      ensures BodyEffect(StartTag(tag), Reprocess(StartTag(tag.(name := Img))), mode, s, quirks, scripting, form, mode, s, form)
    {
      hide *;
      var img := tag.(name := Img);
      ImagesAlike(tag, mode, scripting);
      FormIsKept(tag, s, form);
      FormIsKept(img, s, form);
      StartStepIs(tag, s, quirks, scripting, form);
      BodyStepIs(StartTag(tag), s, quirks, scripting, form);
      forall quirky
        ensures BodyStep(StartTag(img), s, quirky, scripting, form) == BodyStep(StartTag(tag), s, quirks, scripting, form)
      {
        StartStepIs(img, s, quirky, scripting, form);
        BodyStepIs(StartTag(img), s, quirky, scripting, form);
      }
      SameStepIf(StartTag(tag), mode, s, quirks, scripting, form, StartTag(img), s);
      EffectAgain(StartTag(tag), StartTag(img), mode, s, quirks, scripting, form, mode, s, form);
    }

    static lemma ImagesAlike(tag: Tag, mode: Mode, scripting: bool)
      requires tag.name.Image?
      ensures var img := tag.(name := Img);
              && img.name == Img && IsVoid(Img) && !IsQuietVoid(Img) && !IsHeadContent(Img) && !OpensNothing(Img)
              && !IsVoid(tag.name) && !IsQuietVoid(tag.name) && !IsHeadContent(tag.name) && !OpensNothing(tag.name)
              && HasStep(mode, StartTag(img)) && !MayFail(StartTag(img))
              && ModeAfter(StartTag(img), mode, scripting) == ModeAfter(StartTag(tag), mode, scripting)
      ensures forall ignored, s :: Ignores(StartTag(tag), ignored, s)
    {
    }

    static lemma ImageAgain(tag: Tag, mode: Mode, original: Mode, open: Stack, active: Entries, head: Option<Element>, t: Tree, rank: map<NodeId, real>, next: NodeId)
      requires Flowing(mode, open, active, t, rank, next) && tag.name.Image?
      ensures Handled(StartTag(tag), Reprocess(StartTag(tag.(name := Img))), mode, open, mode, original, open, active, head, t, rank, next)
    {
      FlowRuns(mode, original, open, active, head, t, rank, next);
      hide Running;
      hide Sound;
      hide ZoneOf;
      hide Settled;
    }

    // ---------------------------------------------------------------------------------------------
    // Start tags in a body that simulate other tokens

    method CloseParagraph()
      requires Flowing(mode, open, active, tree, rank, nextId)
      modifies this
      ensures Flowing(mode, open, active, tree, rank, nextId) && mode == old(mode) && formElement == old(formElement)
      ensures Snapshot(open, active, tree, nextId) == WithoutParagraph(old(Snapshot(open, active, tree, nextId)))
      decreases 1, 0, 0, 0
    {
      hide *;
      ParagraphCloses(Snapshot(open, active, tree, nextId), quirks, scriptingFlag, formElement);
      var inScope := HasElementInScope({P}, ButtonScope);
      if inScope {
        Simulable(mode, open, active, tree, rank, nextId);
        var _ := Simulate(EndTag(Tag(P, map[])));
      }
    }

    // A token the rules make up, which is processed like any other.
    method Simulate(token: Token) returns (out: Outcome)
      requires Flowing(mode, open, active, tree, rank, nextId) && StaysPut(mode, token, open)
      modifies this
      ensures !out.Reprocess? && mode == old(mode) && Flowing(mode, open, active, tree, rank, nextId)
      ensures out.Failed? ==> MayFail(token)
      ensures out.Done? ==> Snapshot(open, active, tree, nextId) == BodyStep(token, old(Snapshot(open, active, tree, nextId)), old(quirks), scriptingFlag, old(formElement))
      ensures out.Done? ==> formElement == FormAfter(token, old(Snapshot(open, active, tree, nextId)), old(formElement))
      ensures out.Failed? ==> Snapshot(open, active, tree, nextId) == old(Snapshot(open, active, tree, nextId)) && formElement == old(formElement)
      ensures FaultIs(token, out, mode, old(Snapshot(open, active, tree, nextId)), mode, Snapshot(open, active, tree, nextId))
      decreases if token.StartTag? && (token.tag.name.P? || token.tag.name.Hr? || token.tag.name.Form?) then 1 else 0, Turns(mode, token), |open|, 10
    {
      hide *;
      ghost var mode0, s0, quirks0, form0 := mode, Snapshot(open, active, tree, nextId), quirks, formElement;
      FlowRuns(mode, originalMode, open, active, headElement, tree, rank, nextId);
      NeedToStay(mode, token, open);
      TokensThatStay(mode, token, open);
      out := Dispatch(token);
      Stayed(token, out, mode0, s0, quirks0, scriptingFlag, form0, mode, originalMode, Snapshot(open, active, tree, nextId), formElement, headElement, rank);
    }

    static lemma TokensThatStay(mode: Mode, token: Token, open: Stack)
      requires StaysPut(mode, token, open)
      ensures IsBodyMode(mode) && token != Character('\n') && !token.EndOfFile?
    {
      hide InScope;
    }

    static lemma Stayed(token: Token, out: Outcome, mode0: Mode, s0: Snapshot, quirks: bool, scripting: bool, form0: Option<FormElement>,
                        mode: Mode, original: Mode, s: Snapshot, form: Option<FormElement>, head: Option<Element>, rank: map<NodeId, real>)
      requires Handled(token, out, mode0, s0.open, mode, original, s.open, s.active, head, s.tree, rank, s.next) && !out.Reprocess?
      requires BodyEffect(token, out, mode0, s0, quirks, scripting, form0, mode, s, form) && StaysPut(mode0, token, s0.open)
      ensures mode == mode0 && Flowing(mode, s.open, s.active, s.tree, rank, s.next) && (out.Failed? ==> MayFail(token))
      ensures out.Done? ==> s == BodyStep(token, s0, quirks, scripting, form0) && form == FormAfter(token, s0, form0)
      ensures out.Failed? ==> s == s0 && form == form0
    {
      hide Running;
      hide Flowing;
      hide Sound;
      hide Smaller;
      hide Onward;
      hide InScope;
      hide BodyStep;
      hide Reconstructed;
      hide Ignores;
      hide SameStep;
      FlowingRuns(mode, original, s.open, s.active, head, s.tree, rank, s.next);
    }

    // What the simulated end tags come to.
    static lemma ParagraphCloses(s: Snapshot, quirks: bool, scripting: bool, form: Option<FormElement>)
      ensures WithoutParagraph(s) ==
              if InScope(s.open, {P}, ButtonScope) then BodyStep(EndTag(Tag(P, map[])), s, quirks, scripting, form) else s
      ensures FormAfter(EndTag(Tag(P, map[])), s, form) == form
    {
      hide *;
      BodyStepIs(EndTag(Tag(P, map[])), s, quirks, scripting, form);
      EndStepIs(Tag(P, map[]), s, form);
      FormIsKept(Tag(P, map[]), s, form);
      WithoutParagraphIs(s);
    }

    static lemma ItemCloses(s: Snapshot, quirks: bool, scripting: bool, form: Option<FormElement>)
      ensures InListItem(s.open) ==>
                BodyStep(EndTag(Tag(Li, map[])), s, quirks, scripting, form) == Snapshot(WithoutLi(s.open), s.active, s.tree, s.next)
      ensures !InListItem(s.open) ==> WithoutLi(s.open) == s.open
      ensures FormAfter(EndTag(Tag(Li, map[])), s, form) == form
    {
      OneCloses(s, Li, quirks, scripting, form);
      if InListItem(s.open) {
        ListItemInScope(s.open);
      }
      hide BodyStep;
      hide InScope;
    }

    static lemma OneCloses(s: Snapshot, n: Name, quirks: bool, scripting: bool, form: Option<FormElement>)
      requires n == Li || n == Button || n == OptionName
      ensures var k := ClosingPlace(s.open, n);
              k <= |s.open| && BodyStep(EndTag(Tag(n, map[])), s, quirks, scripting, form) == Snapshot(CutAt(s.open, k), s.active, s.tree, s.next)
      ensures FormAfter(EndTag(Tag(n, map[])), s, form) == form
    {
      hide *;
      LabelIsOther();
      BodyStepIs(EndTag(Tag(n, map[])), s, quirks, scripting, form);
      EndStepIs(Tag(n, map[]), s, form);
      FormIsKept(Tag(n, map[]), s, form);
      ClosedOneIs(s, n);
    }

    static lemma ButtonCloses(s: Snapshot, quirks: bool, scripting: bool, form: Option<FormElement>)
      ensures InScope(s.open, {Button}, Ordinary) ==>
                && 0 <= Topmost(s.open, {Button}) < |s.open|
                && BodyStep(EndTag(Tag(Button, map[])), s, quirks, scripting, form) ==
                   Snapshot(s.open[..Topmost(s.open, {Button})], s.active, s.tree, s.next)
      ensures FormAfter(EndTag(Tag(Button, map[])), s, form) == form
    {
      OneCloses(s, Button, quirks, scripting, form);
      hide BodyStep;
    }

    static lemma OptionEnds(s: Snapshot, quirks: bool, scripting: bool, form: Option<FormElement>)
      ensures s.open != [] && Top(s.open).name.OptionName? ==>
                BodyStep(EndTag(Tag(OptionName, map[])), s, quirks, scripting, form) == Snapshot(WithoutOption(s.open), s.active, s.tree, s.next)
      ensures FormAfter(EndTag(Tag(OptionName, map[])), s, form) == form
    {
      OneCloses(s, OptionName, quirks, scripting, form);
      hide BodyStep;
      hide InScope;
    }

    static lemma FormattingCloses(s: Snapshot, n: Name, quirks: bool, scripting: bool, form: Option<FormElement>)
      requires n == A || n == Nobr
      ensures BodyStep(EndTag(Tag(n, map[])), s, quirks, scripting, form) == Agency(s, n)
      ensures FormAfter(EndTag(Tag(n, map[])), s, form) == form
    {
      hide *;
      LabelIsOther();
      BodyStepIs(EndTag(Tag(n, map[])), s, quirks, scripting, form);
      EndStepIs(Tag(n, map[]), s, form);
      FormIsKept(Tag(n, map[]), s, form);
    }

    method BodyBlock(tag: Tag)
      requires Flowing(mode, open, active, tree, rank, nextId) && IsPlain(tag.name) && !TakesMarker(tag.name)
      modifies this
      ensures Flowing(mode, open, active, tree, rank, nextId) && mode == old(mode) && formElement == old(formElement)
      ensures Snapshot(open, active, tree, nextId) == Opened(WithoutParagraph(old(Snapshot(open, active, tree, nextId))), tag)
      decreases 1, 1, 0, 0
    {
      hide *;
      CloseParagraph();
      var _ := InsertPlain(tag);
    }

    static lemma NamedAfter(id: NodeId, tag: Tag)
      ensures NewElement(id, tag).name == tag.name && NewElement(id, tag).id == id
    {
    }

    method BodyHeading(tag: Tag)
      requires Flowing(mode, open, active, tree, rank, nextId) && IsPlain(tag.name) && !TakesMarker(tag.name)
      modifies this
      ensures Flowing(mode, open, active, tree, rank, nextId) && mode == old(mode) && formElement == old(formElement)
      ensures Snapshot(open, active, tree, nextId) == Opened(WithoutAHeading(WithoutParagraph(old(Snapshot(open, active, tree, nextId)))), tag)
      decreases 1, 1, 0, 0
    {
      hide *;
      CloseParagraph();
      FlowInside(mode, open, active, tree, rank, nextId);
      WithoutAHeadingIs(Snapshot(open, active, tree, nextId));
      if IsHeading(open[|open| - 1].name) {
        PopPlain(mode, open, active, tree, rank, nextId);
        PopCurrentNode();
      }
      var _ := InsertPlain(tag);
    }

    static lemma WithoutAHeadingIs(s: Snapshot)
      requires s.open != []
      ensures WithoutAHeading(s) == Snapshot(if IsHeading(s.open[|s.open| - 1].name) then s.open[..|s.open| - 1] else s.open, s.active, s.tree, s.next)
    {
    }

    static lemma PopPlain(mode: Mode, open: Stack, active: Entries, t: Tree, rank: map<NodeId, real>, next: NodeId)
      requires Flowing(mode, open, active, t, rank, next)
      ensures open != []
      ensures IsHeading(open[|open| - 1].name) ==> Flowing(mode, open[..|open| - 1], active, t, rank, next)
    {
      hide Sound;
      hide ZoneOf;
      AnchorOfFlow(open);
      if IsHeading(open[|open| - 1].name) {
        CloseInside(open, active, t, rank, next, |open| - 1);
      }
    }

    method BodyPre(tag: Tag)
      requires Flowing(mode, open, active, tree, rank, nextId) && IsPlain(tag.name) && !TakesMarker(tag.name)
      modifies this
      ensures Flowing(mode, open, active, tree, rank, nextId) && mode == old(mode) && formElement == old(formElement)
      ensures Snapshot(open, active, tree, nextId) == Opened(WithoutParagraph(old(Snapshot(open, active, tree, nextId))), tag)
      ensures ignoreLineFeed && !framesetOk
      decreases 1, 1, 0, 1
    {
      hide *;
      BodyBlock(tag);
      ignoreLineFeed, framesetOk := true, false;
    }

    method BodyForm(tag: Tag) returns (ignored: bool)
      requires Flowing(mode, open, active, tree, rank, nextId) && tag.name.Form?
      modifies this
      ensures Flowing(mode, open, active, tree, rank, nextId) && mode == old(mode)
      ensures ignored <==> old(formElement).Some?
      ensures Snapshot(open, active, tree, nextId) ==
              if ignored then old(Snapshot(open, active, tree, nextId)) else Opened(WithoutParagraph(old(Snapshot(open, active, tree, nextId))), tag)
      ensures formElement == FormAfter(StartTag(tag), old(Snapshot(open, active, tree, nextId)), old(formElement))
      decreases 1, 1, 0, 0
    {
      hide *;
      FormRemembered(tag, Snapshot(open, active, tree, nextId), formElement);
      if formElement.Some? {
        return true;
      }
      CloseParagraph();
      FormIsPlain(tag.name);
      NamedAfter(nextId, tag);
      var e := InsertPlain(tag);
      formElement := Some(e);
      return false;
    }

    static lemma FormRemembered(tag: Tag, s: Snapshot, form: Option<FormElement>)
      requires tag.name.Form?
      ensures form.Some? ==> FormAfter(StartTag(tag), s, form) == form
      ensures form == None ==> FormAfter(StartTag(tag), s, form) == Some(NewElement(s.next, tag))
      ensures WithoutParagraph(s).next == s.next
    {
    }

    static lemma FormIsPlain(n: Name)
      requires n.Form? || n.Hr? || n.Li? || n.Xmp? || n.OptionName? || n.Optgroup?
      ensures !TakesMarker(n) && (n.Hr? || IsPlain(n))
    {
    }

    // An open li with nothing but address, div, p and ordinary elements above it is closed first.
    method BodyListItem(tag: Tag)
      requires Flowing(mode, open, active, tree, rank, nextId) && tag.name.Li?
      modifies this
      ensures Flowing(mode, open, active, tree, rank, nextId) && mode == old(mode) && formElement == old(formElement)
      ensures Snapshot(open, active, tree, nextId) == Opened(WithoutParagraph(WithoutItem(old(Snapshot(open, active, tree, nextId)))), tag)
      decreases 1, 1, 0, 0
    {
      hide *;
      framesetOk := false;
      WithoutItemIs(Snapshot(open, active, tree, nextId));
      ItemCloses(Snapshot(open, active, tree, nextId), quirks, scriptingFlag, formElement);
      var found := FindListItem();
      if found {
        Simulable(mode, open, active, tree, rank, nextId);
        var _ := Simulate(EndTag(Tag(Li, map[])));
      }
      CloseParagraph();
      FormIsPlain(tag.name);
      var _ := InsertPlain(tag);
    }

    static lemma WithoutItemIs(s: Snapshot)
      ensures WithoutItem(s) == Snapshot(WithoutLi(s.open), s.active, s.tree, s.next)
    {
    }

    static lemma Simulable(mode: Mode, open: Stack, active: Entries, t: Tree, rank: map<NodeId, real>, next: NodeId)
      requires Flowing(mode, open, active, t, rank, next)
      ensures StaysPut(mode, EndTag(Tag(Li, map[])), open) && StaysPut(mode, EndTag(Tag(Button, map[])), open)
      ensures StaysPut(mode, EndTag(Tag(A, map[])), open) && StaysPut(mode, EndTag(Tag(Nobr, map[])), open)
      ensures StaysPut(mode, EndTag(Tag(OptionName, map[])), open) && StaysPut(mode, EndTag(Tag(LabelName, map[])), open)
      ensures StaysPut(mode, EndTag(Tag(Form, map[])), open) && StaysPut(mode, StartTag(Tag(Form, map[])), open)
      ensures StaysPut(mode, StartTag(Tag(Hr, map[])), open) && StaysPut(mode, StartTag(Tag(LabelName, map[])), open)
      ensures StaysPut(mode, StartTag(Tag(Br, map[])), open) && StaysPut(mode, StartTag(Tag(P, map[])), open)
      ensures StaysPut(mode, EndTag(Tag(P, map[])), open) <==> InScope(open, {P}, ButtonScope)
      ensures forall n :: n in {Li, Button, P, OptionName, LabelName, Form} ==> !MayFail(EndTag(Tag(n, map[])))
      ensures forall n :: n in {Form, Hr, LabelName, Br, P} ==> !MayFail(StartTag(Tag(n, map[])))
    {
      FlowInside(mode, open, active, t, rank, next);
      hide Flowing;
      hide InScope;
      EndsThatCannotFail();
      hide MayFail;
    }

    static lemma EndsThatCannotFail()
      ensures forall n :: n in {Li, Button, P, OptionName, LabelName, Form} ==> !MayFail(EndTag(Tag(n, map[])))
      ensures forall n :: n in {Form, Hr, LabelName, Br, P} ==> !MayFail(StartTag(Tag(n, map[])))
    {
    }

    method FindListItem() returns (found: bool)
      ensures found <==> exists k :: ListItemAt(open, k)
      ensures found == InListItem(open)
    {
      hide EndsSearch;
      hide ListItemAt;
      ListItemIs(open);
      var i := |open|;
      while i > 0
        invariant 0 <= i <= |open|
        invariant forall j :: i <= j < |open| ==> !open[j].name.Li? && !EndsSearch(open[j].name)
      {
        i := i - 1;
        if open[i].name.Li? {
          assert open[i].name in {Li};
          return true;
        }
        if EndsSearch(open[i].name) {
          return false;
        }
      }
      return false;
    }

    method BodyHr(tag: Tag)
      requires Flowing(mode, open, active, tree, rank, nextId) && tag.name.Hr?
      modifies this
      ensures Flowing(mode, open, active, tree, rank, nextId) && mode == old(mode) && formElement == old(formElement) && !framesetOk
      ensures Snapshot(open, active, tree, nextId) == Voided(WithoutParagraph(old(Snapshot(open, active, tree, nextId))), tag)
      decreases 1, 1, 0, 0
    {
      hide *;
      CloseParagraph();
      FormIsPlain(tag.name);
      VoidInFlow(tag);
      framesetOk := false;
    }

    method BodyOption(tag: Tag)
      requires Flowing(mode, open, active, tree, rank, nextId) && (tag.name.OptionName? || tag.name.Optgroup?)
      modifies this
      ensures Flowing(mode, open, active, tree, rank, nextId) && mode == old(mode) && formElement == old(formElement)
      ensures Snapshot(open, active, tree, nextId) == Opened(Reconstructed(WithoutAnOption(old(Snapshot(open, active, tree, nextId)))), tag)
      decreases 1, 1, 0, 0
    {
      hide *;
      FlowInside(mode, open, active, tree, rank, nextId);
      WithoutAnOptionIs(Snapshot(open, active, tree, nextId));
      OptionEnds(Snapshot(open, active, tree, nextId), quirks, scriptingFlag, formElement);
      if open[|open| - 1].name.OptionName? {
        Simulable(mode, open, active, tree, rank, nextId);
        var _ := Simulate(EndTag(Tag(OptionName, map[])));
      }
      FormIsPlain(tag.name);
      BodyOther(tag);
    }

    static lemma WithoutAnOptionIs(s: Snapshot)
      requires s.open != []
      ensures Top(s.open) == s.open[|s.open| - 1]
      ensures WithoutAnOption(s) == if Top(s.open).name.OptionName? then Snapshot(WithoutOption(s.open), s.active, s.tree, s.next) else s
    {
    }

    method BodyXmp(tag: Tag)
      requires Flowing(mode, open, active, tree, rank, nextId) && tag.name.Xmp?
      modifies this
      ensures Running(mode, originalMode, open, active, headElement, tree, rank, nextId) && mode.Text? && formElement == old(formElement)
      ensures Snapshot(open, active, tree, nextId) == Opened(Reconstructed(WithoutParagraph(old(Snapshot(open, active, tree, nextId)))), tag)
      decreases 1, 1, 0, 0
    {
      hide *;
      CloseParagraph();
      ReconstructInFlow();
      framesetOk := false;
      FormIsPlain(tag.name);
      TextHolders(tag.name);
      BodyRawText(tag);
    }

    method BodyTable(tag: Tag)
      requires Flowing(mode, open, active, tree, rank, nextId) && tag.name.Table?
      modifies this
      ensures Running(mode, originalMode, open, active, headElement, tree, rank, nextId) && mode.InTable? && formElement == old(formElement)
      ensures Snapshot(open, active, tree, nextId) ==
              Opened(if old(quirks) then old(Snapshot(open, active, tree, nextId)) else WithoutParagraph(old(Snapshot(open, active, tree, nextId))), tag)
      decreases 1, 1, 0, 0
    {
      hide *;
      if !quirks {
        CloseParagraph();
      }
      FlowInside(mode, open, active, tree, rank, nextId);
      TableOpens(open, nextId, tag);
      var _ := InsertAnElement(tag);
      framesetOk := false;
      SwitchMode(InTable);
      RegionRuns(mode, originalMode, open, active, headElement, tree, rank, nextId);
    }

    static lemma TableOpens(open: Stack, next: NodeId, tag: Tag)
      requires IsFlow(ZoneOf(open)) && tag.name.Table?
      ensures ZoneOf(open + [NewElement(next, tag)]) == Home(InTable) && !TakesMarker(tag.name) && !IsQuiet(InTable)
    {
      assert Below(open + [NewElement(next, tag)]) == open;
    }

    // A mode whose stack is in its own zone, past the head.
    static lemma RegionRuns(mode: Mode, original: Mode, open: Stack, active: Entries, head: Option<Element>, t: Tree, rank: map<NodeId, real>, next: NodeId)
      requires !mode.Text? && !mode.InTableText? && !IsQuiet(mode)
      requires Grounded(open, active, t, rank, next) && Balanced(open, active) && ZoneOf(open) == Home(mode)
      ensures Running(mode, original, open, active, head, t, rank, next)
    {
      hide Grounded;
      hide Balanced;
      hide ZoneOf;
    }

    method BodyButton(tag: Tag) returns (out: Outcome)
      requires Flowing(mode, open, active, tree, rank, nextId) && tag.name.Button?
      modifies this
      ensures Handled(StartTag(tag), out, old(mode), old(open), mode, originalMode, open, active, headElement, tree, rank, nextId)
      ensures mode == old(mode) && formElement == old(formElement)
      ensures if InScope(old(open), {Button}, Ordinary)
              then out == Reprocess(StartTag(tag)) && Snapshot(open, active, tree, nextId) == WithoutAButton(old(Snapshot(open, active, tree, nextId)))
              else out == Done(false) && !framesetOk && Snapshot(open, active, tree, nextId) == Opened(Reconstructed(old(Snapshot(open, active, tree, nextId))), tag)
      decreases 1, 1, 0, 0
    {
      hide *;
      ghost var s0 := Snapshot(open, active, tree, nextId);
      ButtonCloses(s0, quirks, scriptingFlag, formElement);
      var inScope := HasElementInScope({Button}, Ordinary);
      if inScope {
        Simulable(mode, open, active, tree, rank, nextId);
        WithoutAButtonIs(s0);
        var _ := Simulate(EndTag(Tag(Button, map[])));
        ButtonAgain(tag, mode, originalMode, s0.open, open, active, headElement, tree, rank, nextId);
        return Reprocess(StartTag(tag));
      }
      ButtonIsPlain(tag.name);
      BodyOther(tag);
      framesetOk := false;
      FlowDone(StartTag(tag), false, mode, originalMode, s0.open, open, active, headElement, tree, rank, nextId);
      return Done(false);
    }

    static lemma WithoutAButtonIs(s: Snapshot)
      requires InScope(s.open, {Button}, Ordinary)
      ensures WithoutAButton(s) == Snapshot(s.open[..Topmost(s.open, {Button})], s.active, s.tree, s.next)
      ensures |WithoutAButton(s).open| < |s.open|
    {
    }

    static lemma ButtonIsPlain(n: Name)
      requires n.Button?
      ensures IsPlain(n) && !TakesMarker(n) && !IsTablePart(n)
    {
    }

    static lemma ButtonAgain(tag: Tag, mode: Mode, original: Mode, open0: Stack, open: Stack, active: Entries, head: Option<Element>,
                             t: Tree, rank: map<NodeId, real>, next: NodeId)
      requires Flowing(mode, open, active, t, rank, next) && tag.name.Button? && |open| < |open0|
      ensures Handled(StartTag(tag), Reprocess(StartTag(tag)), mode, open0, mode, original, open, active, head, t, rank, next)
    {
      FlowRuns(mode, original, open, active, head, t, rank, next);
      hide Running;
      hide Sound;
      hide ZoneOf;
      hide Settled;
      hide InScope;
    }

    method DropFromActive(e: Element)
      requires Flowing(mode, open, active, tree, rank, nextId)
      modifies `active
      ensures Flowing(mode, open, active, tree, rank, nextId)
      ensures active == if EntryOf(old(active), e) < 0 then old(active) else Removed(old(active), EntryOf(old(active), e))
    {
      hide *;
      EntryDropped(mode, open, active, tree, rank, nextId, e);
      RemoveFromActive(e);
    }

    static lemma EntryDropped(mode: Mode, open: Stack, active: Entries, t: Tree, rank: map<NodeId, real>, next: NodeId, e: Element)
      requires Flowing(mode, open, active, t, rank, next)
      ensures EntryOf(active, e) >= 0 ==> Flowing(mode, open, Removed(active, EntryOf(active, e)), t, rank, next)
    {
      hide Sound;
      hide ZoneOf;
      hide InList;
      if EntryOf(active, e) >= 0 {
        SoundDrop(open, active, t, rank, next, EntryOf(active, e));
      }
    }

    method DropFromStack(e: Element)
      requires Flowing(mode, open, active, tree, rank, nextId) && IsPlain(e.name)
      modifies `open
      ensures Flowing(mode, open, active, tree, rank, nextId)
      ensures open == if IndexOf(old(open), e) < 0 then old(open) else Removed(old(open), IndexOf(old(open), e))
    {
      hide *;
      ElementDropped(mode, open, active, tree, rank, nextId, e);
      RemoveFromStack(e);
    }

    static lemma ElementDropped(mode: Mode, open: Stack, active: Entries, t: Tree, rank: map<NodeId, real>, next: NodeId, e: Element)
      requires Flowing(mode, open, active, t, rank, next) && IsPlain(e.name)
      ensures IndexOf(open, e) >= 0 ==> Flowing(mode, Removed(open, IndexOf(open, e)), active, t, rank, next)
    {
      hide Sound;
      hide ZoneOf;
      AnchorOfFlow(open);
      if IndexOf(open, e) >= 0 {
        FlowRemove(open, IndexOf(open, e));
        SoundRemove(open, active, t, rank, next, IndexOf(open, e));
      }
    }

    method BodyAnchor(tag: Tag) returns (out: Outcome)
      requires Flowing(mode, open, active, tree, rank, nextId) && tag.name.A?
      modifies this
      ensures Handled(StartTag(tag), out, old(mode), old(open), mode, originalMode, open, active, headElement, tree, rank, nextId)
      ensures mode == old(mode) && formElement == old(formElement) && !out.Reprocess?
      ensures Snapshot(open, active, tree, nextId) ==
              if out.Failed? then old(Snapshot(open, active, tree, nextId)) else AnchorStep(old(Snapshot(open, active, tree, nextId)), tag)
      ensures FaultIs(StartTag(tag), out, mode, old(Snapshot(open, active, tree, nextId)), mode, Snapshot(open, active, tree, nextId))
      decreases 1, 1, 0, 0
    {
      hide *;
      ghost var s0 := Snapshot(open, active, tree, nextId);
      AnchorFormats(tag);
      AnchorStepIs(s0, tag);
      FormattingCloses(s0, A, quirks, scriptingFlag, formElement);
      FlowInside(mode, open, active, tree, rank, nextId);
      var k := FindActive(A);
      if k < 0 {
        NoAnchorNoFault(mode, tag, s0);
      } else {
        var element := active[k].element;
        assert element.name.A?;
        AnchorFormats(tag.(name := element.name));
        Simulable(mode, open, active, tree, rank, nextId);
        out := Simulate(EndTag(Tag(A, map[])));
        FlowRuns(mode, originalMode, open, active, headElement, tree, rank, nextId);
        AnchorFaults(mode, tag, s0, out, Snapshot(open, active, tree, nextId));
        if out.Failed? {
          FailedDone(StartTag(tag), out.fault, mode, s0.open, mode, originalMode, open, active, headElement, tree, rank, nextId);
          return;
        }
        WithoutElementIs(Snapshot(open, active, tree, nextId), element);
        DropFromActive(element);
        DropFromStack(element);
      }
      BodyFormatting(tag);
      FlowDone(StartTag(tag), false, mode, originalMode, s0.open, open, active, headElement, tree, rank, nextId);
      return Done(false);
    }

    static lemma AnchorFormats(tag: Tag)
      requires tag.name.A? || tag.name.Nobr?
      ensures IsFormatting(tag.name) && IsPlain(tag.name) && MayFail(StartTag(tag)) && !IsTablePart(tag.name)
    {
    }

    static lemma AnchorStepIs(s: Snapshot, tag: Tag)
      ensures var k := LastNamed(s.active, A);
              AnchorStep(s, tag) == Formatted(Reconstructed(if k < 0 then s else WithoutElement(Agency(s, A), s.active[k].element)), tag)
    {
    }

    static lemma WithoutElementIs(s: Snapshot, e: Element)
      ensures WithoutElement(s, e) ==
              Snapshot(if IndexOf(s.open, e) < 0 then s.open else Removed(s.open, IndexOf(s.open, e)),
                       if EntryOf(s.active, e) < 0 then s.active else Removed(s.active, EntryOf(s.active, e)), s.tree, s.next)
    {
    }

    // An a start tag fails as the end tag it simulates does, if it simulates one.
    static lemma AnchorFaults(mode: Mode, tag: Tag, s: Snapshot, out: Outcome, s1: Snapshot)
      requires IsBodyMode(mode) && tag.name.A? && !out.Reprocess? && FaultIs(EndTag(Tag(A, map[])), out, mode, s, mode, s1)
      ensures out.Failed? ==> forall after :: FaultIs(StartTag(tag), out, mode, s, mode, after)
      ensures !out.Failed? ==> forall after :: FaultIs(StartTag(tag), Done(false), mode, s, mode, after)
    {
      hide AgencyFails;
      hide InScope;
    }

    static lemma NoAnchorNoFault(mode: Mode, tag: Tag, s: Snapshot)
      requires tag.name.A? && LastNamed(s.active, A) < 0
      ensures forall after :: FaultIs(StartTag(tag), Done(false), mode, s, mode, after)
    {
      hide LastNamed;
      hide InScope;
    }

    method BodyNobr(tag: Tag) returns (out: Outcome)
      requires Flowing(mode, open, active, tree, rank, nextId) && tag.name.Nobr?
      modifies this
      ensures Handled(StartTag(tag), out, old(mode), old(open), mode, originalMode, open, active, headElement, tree, rank, nextId)
      ensures mode == old(mode) && formElement == old(formElement) && !out.Reprocess?
      ensures Snapshot(open, active, tree, nextId) ==
              if out.Failed? then Reconstructed(old(Snapshot(open, active, tree, nextId))) else NobrStep(old(Snapshot(open, active, tree, nextId)), tag)
      ensures FaultIs(StartTag(tag), out, mode, old(Snapshot(open, active, tree, nextId)), mode, Snapshot(open, active, tree, nextId))
      decreases 1, 1, 0, 0
    {
      hide *;
      ghost var s0 := Snapshot(open, active, tree, nextId);
      AnchorFormats(tag);
      NobrStepIs(s0, tag);
      FlowInside(mode, open, active, tree, rank, nextId);
      ReconstructInFlow();
      FormattingCloses(Snapshot(open, active, tree, nextId), Nobr, quirks, scriptingFlag, formElement);
      var inScope := HasElementInScope({Nobr}, Ordinary);
      if !inScope {
        NoNobrNoFault(mode, tag, s0);
      } else {
        Simulable(mode, open, active, tree, rank, nextId);
        out := Simulate(EndTag(Tag(Nobr, map[])));
        FlowRuns(mode, originalMode, open, active, headElement, tree, rank, nextId);
        NobrFaults(mode, tag, s0, out, Snapshot(open, active, tree, nextId));
        if out.Failed? {
          FailedDone(StartTag(tag), out.fault, mode, s0.open, mode, originalMode, open, active, headElement, tree, rank, nextId);
          return;
        }
        ReconstructInFlow();
      }
      InsertFormatting(tag);
      FlowDone(StartTag(tag), false, mode, originalMode, s0.open, open, active, headElement, tree, rank, nextId);
      return Done(false);
    }

    static lemma NobrStepIs(s: Snapshot, tag: Tag)
      ensures var r := Reconstructed(s);
              NobrStep(s, tag) == Formatted(if InScope(r.open, {Nobr}, Ordinary) then Reconstructed(Agency(r, Nobr)) else r, tag)
    {
    }

    // A nobr start tag fails as the end tag it simulates does, if it simulates one.
    static lemma NobrFaults(mode: Mode, tag: Tag, s: Snapshot, out: Outcome, s1: Snapshot)
      requires IsBodyMode(mode) && tag.name.Nobr? && !out.Reprocess? && FaultIs(EndTag(Tag(Nobr, map[])), out, mode, Reconstructed(s), mode, s1)
      ensures out.Failed? ==> forall after :: FaultIs(StartTag(tag), out, mode, s, mode, after)
      ensures !out.Failed? ==> forall after :: FaultIs(StartTag(tag), Done(false), mode, s, mode, after)
    {
      hide AgencyFails;
      hide InScope;
      hide Reconstructed;
    }

    static lemma NoNobrNoFault(mode: Mode, tag: Tag, s: Snapshot)
      requires tag.name.Nobr? && !InScope(Reconstructed(s).open, {Nobr}, Ordinary)
      ensures forall after :: FaultIs(StartTag(tag), Done(false), mode, s, mode, after)
    {
      hide LastNamed;
      hide InScope;
      hide IndexOf;
      hide Reconstructed;
    }

    method BodyIsindex(tag: Tag) returns (ignored: bool)
      requires Flowing(mode, open, active, tree, rank, nextId)
      modifies this
      ensures Flowing(mode, open, active, tree, rank, nextId) && mode == old(mode)
      ensures formElement == old(formElement)
      ensures Snapshot(open, active, tree, nextId) ==
              if old(formElement).Some? then old(Snapshot(open, active, tree, nextId)) else IsindexStep(old(Snapshot(open, active, tree, nextId)))
      decreases 2, 0, 0, 0
    {
      hide *;
      if formElement.Some? {
        return true;
      }
      ghost var s0 := Snapshot(open, active, tree, nextId);
      FormSteps(s0, quirks, scriptingFlag);
      Simulable(mode, open, active, tree, rank, nextId);
      var _ := Simulate(StartTag(Tag(Form, map[])));
      RuleSteps(Snapshot(open, active, tree, nextId), quirks, scriptingFlag, formElement);
      Simulable(mode, open, active, tree, rank, nextId);
      var _ := Simulate(StartTag(Tag(Hr, map[])));
      LabelSteps(Snapshot(open, active, tree, nextId), quirks, scriptingFlag, formElement);
      Simulable(mode, open, active, tree, rank, nextId);
      var _ := Simulate(StartTag(Tag(LabelName, map[])));
      LabelSteps(Snapshot(open, active, tree, nextId), quirks, scriptingFlag, formElement);
      Simulable(mode, open, active, tree, rank, nextId);
      var _ := Simulate(EndTag(Tag(LabelName, map[])));
      RuleSteps(Snapshot(open, active, tree, nextId), quirks, scriptingFlag, formElement);
      Simulable(mode, open, active, tree, rank, nextId);
      var _ := Simulate(StartTag(Tag(Hr, map[])));
      FormEndSteps(Snapshot(open, active, tree, nextId), quirks, scriptingFlag, formElement);
      Simulable(mode, open, active, tree, rank, nextId);
      var _ := Simulate(EndTag(Tag(Form, map[])));
      IsindexIs(s0);
      return false;
    }

    static lemma BodyStepIs(token: Token, s: Snapshot, quirks: bool, scripting: bool, form: Option<FormElement>)
      ensures token.StartTag? ==> BodyStep(token, s, quirks, scripting, form) == StartStep(token.tag, s, quirks, scripting, form)
      ensures token.EndTag? ==> BodyStep(token, s, quirks, scripting, form) == EndStep(token.tag, s, form)
    {
      hide StartStep;
      hide EndStep;
    }

    static lemma FormIsKept(tag: Tag, s: Snapshot, form: Option<FormElement>)
      ensures !tag.name.Form? ==> FormAfter(StartTag(tag), s, form) == form == FormAfter(EndTag(tag), s, form)
    {
    }

    // The tokens an isindex start tag stands for.
    static lemma FormSteps(s: Snapshot, quirks: bool, scripting: bool)
      ensures BodyStep(StartTag(Tag(Form, map[])), s, quirks, scripting, None) == Opened(WithoutParagraph(s), Tag(Form, map[]))
      ensures FormAfter(StartTag(Tag(Form, map[])), s, None) == Some(NewElement(s.next, Tag(Form, map[])))
    {
      hide *;
      NamedStep(Tag(Form, map[]), s, quirks, scripting, None);
      BodyStepIs(StartTag(Tag(Form, map[])), s, quirks, scripting, None);
      FormRemembered(Tag(Form, map[]), s, None);
    }

    static lemma RuleSteps(s: Snapshot, quirks: bool, scripting: bool, form: Option<FormElement>)
      ensures BodyStep(StartTag(Tag(Hr, map[])), s, quirks, scripting, form) == Voided(WithoutParagraph(s), Tag(Hr, map[]))
      ensures FormAfter(StartTag(Tag(Hr, map[])), s, form) == form
    {
      hide *;
      NamedStep(Tag(Hr, map[]), s, quirks, scripting, form);
      BodyStepIs(StartTag(Tag(Hr, map[])), s, quirks, scripting, form);
      FormIsKept(Tag(Hr, map[]), s, form);
    }

    static lemma LabelSteps(s: Snapshot, quirks: bool, scripting: bool, form: Option<FormElement>)
      ensures BodyStep(StartTag(Tag(LabelName, map[])), s, quirks, scripting, form) == Opened(Reconstructed(s), Tag(LabelName, map[]))
      ensures BodyStep(EndTag(Tag(LabelName, map[])), s, quirks, scripting, form) == EndStep(Tag(LabelName, map[]), s, None)
      ensures FormAfter(StartTag(Tag(LabelName, map[])), s, form) == form == FormAfter(EndTag(Tag(LabelName, map[])), s, form)
    {
      hide *;
      LabelIsOther();
      NamedStep(Tag(LabelName, map[]), s, quirks, scripting, form);
      BodyStepIs(StartTag(Tag(LabelName, map[])), s, quirks, scripting, form);
      BodyStepIs(EndTag(Tag(LabelName, map[])), s, quirks, scripting, form);
      EndStepIs(Tag(LabelName, map[]), s, form);
      EndStepIs(Tag(LabelName, map[]), s, None);
      FormIsKept(Tag(LabelName, map[]), s, form);
    }

    static lemma LabelIsOther()
      ensures !IsFormatting(LabelName) && !IsFormatting(P) && !IsFormatting(Li) && !IsFormatting(Button) && !IsFormatting(OptionName)
      ensures IsFormatting(A) && IsFormatting(Nobr)
      ensures !IsEmbedded(Li) && !IsEmbedded(Button) && !IsEmbedded(OptionName)
    {
    }

    static lemma FormEndSteps(s: Snapshot, quirks: bool, scripting: bool, form: Option<FormElement>)
      ensures BodyStep(EndTag(Tag(Form, map[])), s, quirks, scripting, form) == EndStep(Tag(Form, map[]), s, form)
      ensures FormAfter(EndTag(Tag(Form, map[])), s, form) == None
    {
      hide EndStep;
    }

    static lemma IsindexIs(s: Snapshot)
      ensures var ruled := Voided(WithoutParagraph(Opened(WithoutParagraph(s), Tag(Form, map[]))), Tag(Hr, map[]));
              var labelled := EndStep(Tag(LabelName, map[]), Opened(Reconstructed(ruled), Tag(LabelName, map[])), None);
              NewElement(s.next, Tag(Form, map[])).name.Form? &&
              IsindexStep(s) == EndStep(Tag(Form, map[]), Voided(WithoutParagraph(labelled), Tag(Hr, map[])), Some(NewElement(s.next, Tag(Form, map[]))))
    {
      hide Voided;
      hide Opened;
      hide Reconstructed;
      hide WithoutParagraph;
      hide EndStep;
    }

    method BodySimulatingStartTag(tag: Tag) returns (out: Outcome)
      requires Flowing(mode, open, active, tree, rank, nextId) && Simulates(tag.name)
      modifies this
      ensures Handled(StartTag(tag), out, old(mode), old(open), mode, originalMode, open, active, headElement, tree, rank, nextId)
      ensures BodyEffect(StartTag(tag), out, old(mode), old(Snapshot(open, active, tree, nextId)), old(quirks), scriptingFlag, old(formElement),
                         mode, Snapshot(open, active, tree, nextId), formElement)
      ensures FaultIs(StartTag(tag), out, old(mode), old(Snapshot(open, active, tree, nextId)), mode, Snapshot(open, active, tree, nextId))
      decreases Need(mode, StartTag(tag), open), Turns(mode, StartTag(tag)), |open|, 3
    {
      hide *;
      var n := tag.name;
      var ignored := false;
      ghost var mode0, s0, quirks0, form0 := mode, Snapshot(open, active, tree, nextId), quirks, formElement;
      SimulatingNames(mode, open, active, tree, rank, nextId, tag);
      SimulatingStep(tag, mode, s0, quirks, scriptingFlag, formElement);
      NamedStep(tag, s0, quirks, scriptingFlag, formElement);
      BlockStep(tag, s0, quirks, scriptingFlag, formElement);
      if n.Button? {
        out := BodyButton(tag);
        ButtonEffect(tag, out, mode0, s0, quirks0, scriptingFlag, form0, Snapshot(open, active, tree, nextId));
      } else if n.A? {
        out := BodyAnchor(tag);
        AnchorEffect(tag, out, mode0, s0, quirks0, scriptingFlag, form0, Snapshot(open, active, tree, nextId));
        return;
      } else if n.Nobr? {
        out := BodyNobr(tag);
        AnchorEffect(tag, out, mode0, s0, quirks0, scriptingFlag, form0, Snapshot(open, active, tree, nextId));
        return;
      } else if n.Table? || n.Xmp? {
        if n.Table? {
          BodyTable(tag);
        } else {
          BodyXmp(tag);
        }
        ElseDone(tag, false, mode0, s0.open, mode, originalMode, open, active, headElement, tree, rank, nextId);
        StartEffect(tag, false, mode0, s0, quirks0, scriptingFlag, form0, mode, Snapshot(open, active, tree, nextId), formElement);
        out := Done(false);
      } else {
        if IsHeading(n) {
          BodyHeading(tag);
        } else if n.Pre? || n.Listing? {
          BodyPre(tag);
        } else if n.Form? {
          ignored := BodyForm(tag);
        } else if n.Li? {
          BodyListItem(tag);
        } else if n.Hr? {
          BodyHr(tag);
        } else if n.Isindex? {
          ignored := BodyIsindex(tag);
        } else if n.OptionName? || n.Optgroup? {
          BodyOption(tag);
        } else {
          BodyBlock(tag);
        }
        StartEffect(tag, ignored, mode0, s0, quirks0, scriptingFlag, form0, mode, Snapshot(open, active, tree, nextId), formElement);
        FlowDone(StartTag(tag), ignored, mode, originalMode, s0.open, open, active, headElement, tree, rank, nextId);
        out := Done(ignored);
      }
      HandledNoFault(StartTag(tag), out, mode0, s0, mode, originalMode, Snapshot(open, active, tree, nextId), headElement, rank);
    }

    static lemma ButtonEffect(tag: Tag, out: Outcome, mode: Mode, s0: Snapshot, quirks: bool, scripting: bool, form: Option<FormElement>, s: Snapshot)
      requires tag.name.Button?
      requires if InScope(s0.open, {Button}, Ordinary) then out == Reprocess(StartTag(tag)) && s == WithoutAButton(s0)
               else out == Done(false) && s == Opened(Reconstructed(s0), tag)
      ensures BodyEffect(StartTag(tag), out, mode, s0, quirks, scripting, form, mode, s, form)
    {
      hide *;
      ButtonIsSimple(tag, mode, scripting);
      ButtonsClosed(s0);
      FormIsKept(tag, s0, form);
      FormIsKept(tag, s, form);
      NamedStep(tag, s0, quirks, scripting, form);
      if InScope(s0.open, {Button}, Ordinary) {
        forall quirky
          ensures BodyStep(StartTag(tag), s, quirky, scripting, form) == BodyStep(StartTag(tag), s0, quirks, scripting, form)
        {
          NamedStep(tag, s, quirky, scripting, form);
          BodyStepIs(StartTag(tag), s, quirky, scripting, form);
          BodyStepIs(StartTag(tag), s0, quirks, scripting, form);
        }
        SameStepIf(StartTag(tag), mode, s0, quirks, scripting, form, StartTag(tag), s);
        EffectAgain(StartTag(tag), StartTag(tag), mode, s0, quirks, scripting, form, mode, s, form);
      } else {
        StartEffect(tag, false, mode, s0, quirks, scripting, form, mode, s, form);
      }
    }

    static lemma ButtonIsSimple(tag: Tag, mode: Mode, scripting: bool)
      requires tag.name.Button?
      ensures HasStep(mode, StartTag(tag)) && ModeAfter(StartTag(tag), mode, scripting) == mode && !MayFail(StartTag(tag))
      ensures forall ignored, s :: Ignores(StartTag(tag), ignored, s)
    {
    }

    static lemma ButtonsClosed(s: Snapshot)
      ensures if InScope(s.open, {Button}, Ordinary) then WithoutAllButtons(WithoutAButton(s)) == WithoutAllButtons(s) else WithoutAllButtons(s) == s
    {
      hide InScope;
    }

    // A token processed again without a change of mode or of the form element.
    static lemma SameStepIf(token: Token, mode: Mode, s0: Snapshot, quirks: bool, scripting: bool, form: Option<FormElement>, again: Token, s: Snapshot)
      requires HasStep(mode, again) && ModeAfter(again, mode, scripting) == ModeAfter(token, mode, scripting)
      requires forall quirky :: BodyStep(again, s, quirky, scripting, form) == BodyStep(token, s0, quirks, scripting, form)
      requires FormAfter(again, s, form) == FormAfter(token, s0, form) && !MayFail(again) && !again.Character?
      requires forall ignored, r :: Ignores(token, ignored, r)
      ensures SameStep(token, mode, s0, quirks, scripting, form, again, mode, s, form)
    {
      hide HasStep;
      hide ModeAfter;
      hide BodyStep;
      hide FormAfter;
      hide MayFail;
      hide Ignores;
    }

    static lemma AnchorEffect(tag: Tag, out: Outcome, mode: Mode, s0: Snapshot, quirks: bool, scripting: bool, form: Option<FormElement>, s: Snapshot)
      requires (tag.name.A? || tag.name.Nobr?) && !out.Reprocess?
      requires tag.name.A? ==> s == if out.Failed? then s0 else AnchorStep(s0, tag)
      requires tag.name.Nobr? ==> s == if out.Failed? then Reconstructed(s0) else NobrStep(s0, tag)
      ensures BodyEffect(StartTag(tag), out, mode, s0, quirks, scripting, form, mode, s, form)
    {
      hide *;
      if out.Failed? {
        FailedStepIs(StartTag(tag), s0);
        EffectFailed(StartTag(tag), out.fault, mode, s0, quirks, scripting, form, s);
      } else {
        NamedStep(tag, s0, quirks, scripting, form);
        FormIsKept(tag, s0, form);
        AnchorStays(tag, mode, scripting);
        StartEffect(tag, out.ignored, mode, s0, quirks, scripting, form, mode, s, form);
      }
    }

    static lemma AnchorStays(tag: Tag, mode: Mode, scripting: bool)
      requires tag.name.A? || tag.name.Nobr?
      ensures ModeAfter(StartTag(tag), mode, scripting) == mode
    {
    }

    // What the rules of the start tags that may simulate a token come to.
    static lemma SimulatingStep(tag: Tag, mode: Mode, s: Snapshot, quirks: bool, scripting: bool, form: Option<FormElement>)
      requires Simulates(tag.name)
      ensures var n := tag.name;
              && (!n.Form? ==> FormAfter(StartTag(tag), s, form) == form)
              && ModeAfter(StartTag(tag), mode, scripting) == (if n.Table? then InTable else if n.Xmp? then Text else mode)
              && (!(n.A? || n.Nobr?) ==> !MayFailIn(mode, StartTag(tag)))
              && (n.Pre? || n.Listing? ==> OpensAlone(n))
              && (n.Button? || n.A? || n.Nobr? || n.Table? || n.Xmp? || IsHeading(n) || n.Form? || n.Li? || n.Hr? || n.Isindex?
                  || n.OptionName? || n.Optgroup? || OpensAlone(n))
    {
    }

    static lemma NamedStep(tag: Tag, s: Snapshot, quirks: bool, scripting: bool, form: Option<FormElement>)
      ensures var n := tag.name;
              var step := StartStep(tag, s, quirks, scripting, form);
              && (n.Form? ==> step == if form.Some? then s else Opened(WithoutParagraph(s), tag))
              && (n.Li? ==> step == Opened(WithoutParagraph(WithoutItem(s)), tag))
              && (n.Hr? ==> step == Voided(WithoutParagraph(s), tag))
              && (n.Table? ==> step == Opened(if quirks then s else WithoutParagraph(s), tag))
              && (n.Xmp? ==> step == Opened(Reconstructed(WithoutParagraph(s)), tag))
              && (n.Isindex? ==> step == if form.Some? then s else IsindexStep(s))
              && (n.OptionName? || n.Optgroup? ==> step == Opened(Reconstructed(WithoutAnOption(s)), tag))
              && (n.Button? ==> step == Opened(Reconstructed(WithoutAllButtons(s)), tag))
              && (n.A? ==> step == AnchorStep(s, tag)) && (n.Nobr? ==> step == NobrStep(s, tag))
              && (n.P? ==> step == Opened(WithoutParagraph(s), tag))
              && (n.LabelName? ==> step == Opened(Reconstructed(s), tag)) && (n.Br? ==> step == Voided(Reconstructed(s), tag))
    {
      hide *;
      HasOwnStepIs(tag.name);
      if HasOwnStep(tag.name) {
        NamedOpens(tag.name);
        NamedVoid(tag.name);
        NamedBlock(tag.name);
      }
      StartStepIs(tag, s, quirks, scripting, form);
    }

    // The classes of the tags that have rules of their own.
    static lemma NamedOpens(n: Name)
      requires HasOwnStep(n)
      ensures !OpensNothing(n) && !IsHeadContent(n) && !IsQuietVoid(n)
    {
    }

    static lemma NamedVoid(n: Name)
      requires HasOwnStep(n)
      ensures !IsEmbedded(n) && !IsHeading(n) && (IsVoid(n) <==> n.Br?) && (IsFormatting(n) <==> n.A? || n.Nobr?)
    {
    }

    static lemma NamedBlock(n: Name)
      requires HasOwnStep(n)
      ensures OpensAlone(n) <==> n.P?
      ensures forall scripting :: OpensText(n, scripting) <==> n.Xmp?
    {
    }

    static predicate HasOwnStep(n: Name) {
      n.Form? || n.Li? || n.Hr? || n.Table? || n.Xmp? || n.Isindex? || n.OptionName? || n.Optgroup? || n.Button? || n.A? || n.Nobr? || n.P?
      || n.LabelName? || n.Br?
    }

    static lemma HasOwnStepIs(n: Name)
      ensures n.Form? || n.Li? || n.Hr? || n.Table? || n.Xmp? || n.Isindex? || n.OptionName? ==> HasOwnStep(n)
      ensures n.Optgroup? || n.Button? || n.A? || n.Nobr? || n.P? || n.LabelName? || n.Br? ==> HasOwnStep(n)
    {
    }

    static lemma BlockStep(tag: Tag, s: Snapshot, quirks: bool, scripting: bool, form: Option<FormElement>)
      ensures OpensAlone(tag.name) ==> StartStep(tag, s, quirks, scripting, form) == Opened(WithoutParagraph(s), tag)
      ensures IsHeading(tag.name) ==> StartStep(tag, s, quirks, scripting, form) == Opened(WithoutAHeading(WithoutParagraph(s)), tag)
    {
      hide *;
      if OpensAlone(tag.name) || IsHeading(tag.name) {
        BlockOpens(tag.name);
      }
      StartStepIs(tag, s, quirks, scripting, form);
    }

    static lemma BlockOpens(n: Name)
      requires OpensAlone(n) || IsHeading(n)
      ensures !OpensNothing(n) && !IsHeadContent(n) && !IsQuietVoid(n) && !IsVoid(n) && !n.Input? && !n.Image? && !n.Hr? && !IsFormatting(n)
      ensures !IsEmbedded(n) && !n.A? && !n.Nobr?
      ensures IsHeading(n) ==> !OpensAlone(n)
    {
      hide *;
      BlockIsPlain(n);
      BlockIsNoContent(n);
      BlockIsNotVoid(n);
      HeadingIsNoBlock(n);
    }

    static lemma BlockIsPlain(n: Name)
      requires OpensAlone(n) || IsHeading(n)
      ensures !OpensNothing(n)
    {
      hide OpensNothing;
      BlockIsNoPart(n);
      OpensNothingIs(n);
      hide IsTablePart;
    }

    static lemma BlockIsNoPart(n: Name)
      requires OpensAlone(n) || IsHeading(n)
      ensures !IsTablePart(n)
    {
      hide *;
      if IsTablePart(n) {
        PartOpensNothing(n);
      }
    }

    static lemma PartOpensNothing(n: Name)
      requires IsTablePart(n)
      ensures !OpensAlone(n) && !IsHeading(n)
    {
    }

    static lemma OpensNothingIs(n: Name)
      ensures OpensNothing(n) <==> n.Html? || n.Body? || n.Frameset? || n.Frame? || n.Head? || IsTablePart(n)
    {
      hide IsTablePart;
    }

    static lemma BlockIsNoContent(n: Name)
      requires OpensAlone(n) || IsHeading(n)
      ensures !IsHeadContent(n) && !IsQuietVoid(n) && !IsEmbedded(n)
    {
      BlockIsNotEmbedded(n);
      hide IsQuietVoid;
      hide IsEmbedded;
    }

    static lemma BlockIsNotEmbedded(n: Name)
      requires OpensAlone(n) || IsHeading(n)
      ensures !IsQuietVoid(n) && !IsEmbedded(n)
    {
    }

    static lemma BlockIsNotVoid(n: Name)
      requires OpensAlone(n) || IsHeading(n)
      ensures !IsVoid(n) && !n.Input? && !n.Image? && !n.Hr? && !IsFormatting(n) && !n.A? && !n.Nobr?
    {
    }

    static lemma HeadingIsNoBlock(n: Name)
      ensures IsHeading(n) ==> !OpensAlone(n)
    {
    }

    static lemma SimulatingNames(mode: Mode, open: Stack, active: Entries, t: Tree, rank: map<NodeId, real>, next: NodeId, tag: Tag)
      requires Flowing(mode, open, active, t, rank, next) && Simulates(tag.name)
      ensures IsBodyMode(mode) && Need(mode, StartTag(tag), open) >= 1 && Turns(mode, StartTag(tag)) >= 2 && !IsTablePart(tag.name)
      ensures tag.name.Isindex? ==> Need(mode, StartTag(tag), open) == 2
      ensures IsHeading(tag.name) ==> IsPlain(tag.name) && !TakesMarker(tag.name) && !tag.name.Form?
      ensures !(tag.name.Button? || tag.name.A? || tag.name.Nobr? || tag.name.Table? || tag.name.Xmp? || tag.name.Form?
                || tag.name.Li? || tag.name.Hr? || tag.name.Isindex? || tag.name.OptionName? || tag.name.Optgroup?) ==>
                IsPlain(tag.name) && !TakesMarker(tag.name)
    {
      hide Sound;
      hide InScope;
      hide ZoneOf;
    }

    method BodyStartTag(tag: Tag) returns (out: Outcome)
      requires Flowing(mode, open, active, tree, rank, nextId) && (IsTablePart(tag.name) ==> mode.InBody?)
      modifies this
      ensures Handled(StartTag(tag), out, old(mode), old(open), mode, originalMode, open, active, headElement, tree, rank, nextId)
      ensures BodyEffect(StartTag(tag), out, old(mode), old(Snapshot(open, active, tree, nextId)), old(quirks), scriptingFlag, old(formElement),
                         mode, Snapshot(open, active, tree, nextId), formElement)
      ensures FaultIs(StartTag(tag), out, old(mode), old(Snapshot(open, active, tree, nextId)), mode, Snapshot(open, active, tree, nextId))
      decreases Need(mode, StartTag(tag), open), Turns(mode, StartTag(tag)), |open|, 4
    {
      hide *;
      if Simulates(tag.name) {
        out := BodySimulatingStartTag(tag);
      } else {
        out := BodySimpleStartTag(tag);
      }
    }

    // ---------------------------------------------------------------------------------------------
    // End tags in a body

    method BodyEndTag(tag: Tag) returns (out: Outcome)
      requires Flowing(mode, open, active, tree, rank, nextId) && ReachesBody(mode, tag.name)
      modifies this
      ensures Handled(EndTag(tag), out, old(mode), old(open), mode, originalMode, open, active, headElement, tree, rank, nextId)
      ensures BodyEffect(EndTag(tag), out, old(mode), old(Snapshot(open, active, tree, nextId)), old(quirks), scriptingFlag, old(formElement),
                         mode, Snapshot(open, active, tree, nextId), formElement)
      ensures FaultIs(EndTag(tag), out, old(mode), old(Snapshot(open, active, tree, nextId)), mode, Snapshot(open, active, tree, nextId))
      decreases Need(mode, EndTag(tag), open), Turns(mode, EndTag(tag)), |open|, 4
    {
      hide *;
      var n := tag.name;
      ghost var mode0, s0, quirks0, form0 := mode, Snapshot(open, active, tree, nextId), quirks, formElement;
      EndTagNames(mode, open, active, tree, rank, nextId, tag);
      EndingStep(tag, mode, s0, quirks, scriptingFlag, formElement);
      if IsFormatting(n) {
        out := BodyEndsFormatting(tag);
        return;
      }
      if n.Html? {
        out := BodyEndsHtml(tag);
        EffectFree(EndTag(tag), out, mode0, s0, quirks0, scriptingFlag, form0, mode, Snapshot(open, active, tree, nextId), formElement);
      } else if n.P? {
        out := BodyEndsParagraph(tag);
        ParagraphEffect(tag, out, mode0, s0, quirks0, scriptingFlag, form0, Snapshot(open, active, tree, nextId));
      } else {
        if n.Body? {
          out := BodyEndsBody();
        } else if n.Br? {
          Simulable(mode, open, active, tree, rank, nextId);
          var _ := Simulate(StartTag(Tag(Br, map[])));
          FlowDone(EndTag(tag), true, mode, originalMode, s0.open, open, active, headElement, tree, rank, nextId);
          out := Done(true);
        } else {
          var ignored := BodyEndsOther(tag);
          FlowDone(EndTag(tag), ignored, mode, originalMode, s0.open, open, active, headElement, tree, rank, nextId);
          out := Done(ignored);
        }
        EndEffect(tag, out.ignored, mode0, s0, quirks0, scriptingFlag, form0, mode, Snapshot(open, active, tree, nextId), formElement);
      }
      HandledNoFault(EndTag(tag), out, mode0, s0, mode, originalMode, Snapshot(open, active, tree, nextId), headElement, rank);
    }

    // What the rules of an end tag come to.
    static lemma EndingStep(tag: Tag, mode: Mode, s: Snapshot, quirks: bool, scripting: bool, form: Option<FormElement>)
      ensures var n := tag.name;
              var step := EndStep(tag, s, form);
              && (IsFormatting(n) ==> step == Agency(s, n) && MayFail(EndTag(tag)) && !n.Body? && !n.Html? && !n.P? && !n.Br? && !n.Form?)
              && (!IsFormatting(n) ==> !MayFailIn(mode, EndTag(tag)))
              && (n.Body? ==> step == s) && (n.Html? ==> !HasStep(mode, EndTag(tag)))
              && (n.Br? ==> step == BodyStep(StartTag(Tag(Br, map[])), s, quirks, scripting, form) && FormAfter(StartTag(Tag(Br, map[])), s, form) == form)
              && (n.Form? ==> step == WithoutTheForm(s, form))
              && (ClosesOne(n) ==> step == ClosedOne(s, n))
              && (ClosesOne(n) <==> !n.Body? && !n.Html? && !n.P? && !n.Br? && !n.Form? && !IsFormatting(n))
              && (!n.Form? ==> FormAfter(EndTag(tag), s, form) == form) && (n.Form? ==> FormAfter(EndTag(tag), s, form) == None)
              && ModeAfter(EndTag(tag), mode, scripting) == if n.Body? then AfterBody else mode
    {
      hide Reconstructed;
      hide Voided;
      hide Agency;
      hide WithoutTheForm;
      hide ClosedOne;
    }

    static lemma EndEffect(tag: Tag, ignored: bool, mode0: Mode, s0: Snapshot, quirks: bool, scripting: bool, form0: Option<FormElement>,
                           mode: Mode, s: Snapshot, form: Option<FormElement>)
      requires s == EndStep(tag, s0, form0) && form == FormAfter(EndTag(tag), s0, form0) && mode == ModeAfter(EndTag(tag), mode0, scripting)
      requires ClosesOne(tag.name) ==> (ignored <==> ClosingPlace(s0.open, tag.name) < 0)
      requires !IsFormatting(tag.name) && (tag.name.Body? ==> !ignored)
      ensures BodyEffect(EndTag(tag), Done(ignored), mode0, s0, quirks, scripting, form0, mode, s, form)
    {
      hide EndStep;
      hide FormAfter;
      hide ModeAfter;
      hide ClosingPlace;
      hide ClosesOne;
      hide IsFormatting;
      hide HasStep;
    }

    static lemma EndDone(tag: Tag, ignored: bool, mode0: Mode, s0: Snapshot, quirks: bool, scripting: bool, form0: Option<FormElement>,
                         mode: Mode, s: Snapshot, form: Option<FormElement>)
      requires s == EndStep(tag, s0, form0) && form == FormAfter(EndTag(tag), s0, form0) && mode == ModeAfter(EndTag(tag), mode0, scripting)
      requires Ignores(EndTag(tag), ignored, s0)
      ensures BodyEffect(EndTag(tag), Done(ignored), mode0, s0, quirks, scripting, form0, mode, s, form)
    {
      hide EndStep;
      hide FormAfter;
      hide ModeAfter;
      hide Ignores;
      hide HasStep;
    }

    static lemma ParagraphEffect(tag: Tag, out: Outcome, mode: Mode, s0: Snapshot, quirks: bool, scripting: bool, form: Option<FormElement>, s: Snapshot)
      requires tag.name.P?
      requires if InScope(s0.open, {P}, ButtonScope) then out == Done(false) && s == WithoutParagraph(s0)
               else out == Reprocess(EndTag(tag)) && s == Opened(WithoutParagraph(s0), Tag(P, map[]))
      ensures BodyEffect(EndTag(tag), out, mode, s0, quirks, scripting, form, mode, s, form)
    {
      hide *;
      ParagraphIsSimple(tag, mode, scripting);
      FormIsKept(tag, s0, form);
      FormIsKept(tag, s, form);
      EndStepIs(tag, s0, form);
      EndStepIs(tag, s, form);
      if InScope(s0.open, {P}, ButtonScope) {
        EndEffect(tag, false, mode, s0, quirks, scripting, form, mode, s, form);
      } else {
        TopParagraph(s0);
        BodyStepIs(EndTag(tag), s0, quirks, scripting, form);
        forall quirky
          ensures BodyStep(EndTag(tag), s, quirky, scripting, form) == BodyStep(EndTag(tag), s0, quirks, scripting, form)
        {
          BodyStepIs(EndTag(tag), s, quirky, scripting, form);
        }
        SameStepIf(EndTag(tag), mode, s0, quirks, scripting, form, EndTag(tag), s);
        EffectAgain(EndTag(tag), EndTag(tag), mode, s0, quirks, scripting, form, mode, s, form);
      }
    }

    static lemma ParagraphIsSimple(tag: Tag, mode: Mode, scripting: bool)
      requires tag.name.P?
      ensures HasStep(mode, EndTag(tag)) && ModeAfter(EndTag(tag), mode, scripting) == mode && !MayFail(EndTag(tag))
      ensures !ClosesOne(tag.name) && !IsFormatting(tag.name)
      ensures forall ignored, s :: Ignores(EndTag(tag), ignored, s)
    {
    }

    // A p that is opened to be closed leaves an empty element behind.
    static lemma TopParagraph(s: Snapshot)
      requires !InScope(s.open, {P}, ButtonScope)
      ensures var r := Opened(WithoutParagraph(s), Tag(P, map[]));
              InScope(r.open, {P}, ButtonScope) && WithoutParagraph(r) == Voided(s, Tag(P, map[]))
    {
      var r := Opened(s, Tag(P, map[]));
      assert WithoutParagraph(s) == s;
      assert Top(r.open).name == P;
      assert Topmost(r.open, {P}) == |s.open|;
      assert r.open[..|s.open|] == s.open;
    }

    static lemma EndTagNames(mode: Mode, open: Stack, active: Entries, t: Tree, rank: map<NodeId, real>, next: NodeId, tag: Tag)
      requires Flowing(mode, open, active, t, rank, next) && ReachesBody(mode, tag.name)
      ensures IsBodyMode(mode) && (tag.name.Body? || tag.name.Html? ==> mode.InBody?)
      ensures tag.name.Br? || tag.name.Html? ==> Need(mode, EndTag(tag), open) == 2
      ensures tag.name.P? && !InScope(open, {P}, ButtonScope) ==> Need(mode, EndTag(tag), open) == 2
      ensures Turns(mode, EndTag(tag)) >= 2
      ensures StaysPut(mode, StartTag(Tag(Br, map[])), open)
    {
      hide Sound;
      hide InScope;
      hide ZoneOf;
    }

    // Whether or not the body is in scope, which only decides about an error message.
    method BodyEndsBody() returns (out: Outcome)
      requires Flowing(mode, open, active, tree, rank, nextId) && mode.InBody?
      modifies `mode, `originalMode
      ensures mode.AfterBody? && Running(mode, originalMode, open, active, headElement, tree, rank, nextId) && out == Done(false)
      ensures forall attributes :: Handled(EndTag(Tag(Body, attributes)), out, old(mode), open, mode, originalMode, open, active, headElement, tree, rank, nextId)
    {
      hide *;
      BodyEnds(originalMode, open, active, headElement, tree, rank, nextId);
      SwitchMode(AfterBody);
      return Done(false);
    }

    static lemma BodyEnds(original: Mode, open: Stack, active: Entries, head: Option<Element>, t: Tree, rank: map<NodeId, real>, next: NodeId)
      requires Flowing(InBody, open, active, t, rank, next)
      ensures Running(AfterBody, original, open, active, head, t, rank, next)
      ensures forall attributes :: Handled(EndTag(Tag(Body, attributes)), Done(false), InBody, open, AfterBody, original, open, active, head, t, rank, next)
    {
      hide Sound;
      hide ZoneOf;
      hide InScope;
    }

    method BodyEndsHtml(tag: Tag) returns (out: Outcome)
      requires Flowing(mode, open, active, tree, rank, nextId) && mode.InBody? && tag.name.Html?
      modifies this
      ensures Handled(EndTag(tag), out, old(mode), old(open), mode, originalMode, open, active, headElement, tree, rank, nextId)
      ensures out == Reprocess(EndTag(tag)) && mode.AfterBody? && formElement == old(formElement)
      ensures Snapshot(open, active, tree, nextId) == old(Snapshot(open, active, tree, nextId))
      decreases 1, 1, 0, 0
    {
      hide *;
      ghost var s0, quirks0, form0 := Snapshot(open, active, tree, nextId), quirks, formElement;
      FlowRuns(mode, originalMode, open, active, headElement, tree, rank, nextId);
      FlowInside(mode, open, active, tree, rank, nextId);
      BodyEndIsDirect(open);
      var ended := Dispatch(EndTag(Tag(Body, map[])));
      BodyHasEnded(tag, ended, s0, quirks0, scriptingFlag, form0, mode, originalMode, Snapshot(open, active, tree, nextId), formElement, headElement, rank);
      if ended == Done(true) {
        return Done(false);
      }
      return Reprocess(EndTag(tag));
    }

    static lemma BodyEndIsDirect(open: Stack)
      ensures Need(InBody, EndTag(Tag(Body, map[])), open) == 0
    {
    }

    static lemma BodyHasEnded(tag: Tag, out: Outcome, s0: Snapshot, quirks: bool, scripting: bool, form0: Option<FormElement>,
                              mode: Mode, original: Mode, s: Snapshot, form: Option<FormElement>, head: Option<Element>, rank: map<NodeId, real>)
      requires Handled(EndTag(Tag(Body, map[])), out, InBody, s0.open, mode, original, s.open, s.active, head, s.tree, rank, s.next) && !out.Reprocess?
      requires BodyEffect(EndTag(Tag(Body, map[])), out, InBody, s0, quirks, scripting, form0, mode, s, form)
      requires tag.name.Html?
      ensures out == Done(false) && mode.AfterBody? && s == s0 && form == form0
      ensures Handled(EndTag(tag), Reprocess(EndTag(tag)), InBody, s0.open, mode, original, s.open, s.active, head, s.tree, rank, s.next)
    {
      hide Running;
      hide Sound;
      hide InScope;
      hide Agency;
      hide ClosedOne;
    }

    // Without a p in scope, one is opened first and the end tag processed again.
    method BodyEndsParagraph(tag: Tag) returns (out: Outcome)
      requires Flowing(mode, open, active, tree, rank, nextId) && tag.name.P?
      modifies this
      ensures Handled(EndTag(tag), out, old(mode), old(open), mode, originalMode, open, active, headElement, tree, rank, nextId)
      ensures mode == old(mode) && formElement == old(formElement)
      ensures if InScope(old(open), {P}, ButtonScope)
              then out == Done(false) && Snapshot(open, active, tree, nextId) == WithoutParagraph(old(Snapshot(open, active, tree, nextId)))
              else out == Reprocess(EndTag(tag))
                   && Snapshot(open, active, tree, nextId) == Opened(WithoutParagraph(old(Snapshot(open, active, tree, nextId))), Tag(P, map[]))
      decreases Need(mode, EndTag(tag), open), 0, 0, 0
    {
      hide *;
      ghost var s0 := Snapshot(open, active, tree, nextId);
      var inScope := HasElementInScope({P}, ButtonScope);
      ParagraphNeeds(mode, open, active, tree, rank, nextId, tag);
      ParagraphSteps(s0, quirks, scriptingFlag, formElement);
      if !inScope {
        Simulable(mode, open, active, tree, rank, nextId);
        var _ := Simulate(StartTag(Tag(P, map[])));
        ParagraphAgain(tag, mode, originalMode, s0.open, open, active, headElement, tree, rank, nextId);
        return Reprocess(EndTag(tag));
      }
      CloseInFlow({P}, {P}, ButtonScope);
      FlowDone(EndTag(tag), false, mode, originalMode, s0.open, open, active, headElement, tree, rank, nextId);
      return Done(false);
    }

    static lemma ParagraphSteps(s: Snapshot, quirks: bool, scripting: bool, form: Option<FormElement>)
      ensures BodyStep(StartTag(Tag(P, map[])), s, quirks, scripting, form) == Opened(WithoutParagraph(s), Tag(P, map[]))
      ensures FormAfter(StartTag(Tag(P, map[])), s, form) == form
      ensures InScope(s.open, {P}, ButtonScope) ==> WithoutParagraph(s) == Snapshot(s.open[..Topmost(s.open, {P})], s.active, s.tree, s.next)
      ensures !InScope(s.open, {P}, ButtonScope) ==> InScope(Opened(WithoutParagraph(s), Tag(P, map[])).open, {P}, ButtonScope)
    {
      hide *;
      if !InScope(s.open, {P}, ButtonScope) {
        TopParagraph(s);
      }
      NamedStep(Tag(P, map[]), s, quirks, scripting, form);
      BodyStepIs(StartTag(Tag(P, map[])), s, quirks, scripting, form);
      FormIsKept(Tag(P, map[]), s, form);
      WithoutParagraphIs(s);
    }

    static lemma WithoutParagraphIs(s: Snapshot)
      ensures InScope(s.open, {P}, ButtonScope) ==> WithoutParagraph(s) == Snapshot(s.open[..Topmost(s.open, {P})], s.active, s.tree, s.next)
      ensures !InScope(s.open, {P}, ButtonScope) ==> WithoutParagraph(s) == s
    {
      hide InScope;
    }

    static lemma ParagraphNeeds(mode: Mode, open: Stack, active: Entries, t: Tree, rank: map<NodeId, real>, next: NodeId, tag: Tag)
      requires Flowing(mode, open, active, t, rank, next) && tag.name.P?
      ensures IsPlain(P) && ReachesBody(mode, tag.name) && tag.name == P
      ensures !InScope(open, {P}, ButtonScope) ==> Need(mode, EndTag(tag), open) == 2
      ensures StaysPut(mode, StartTag(Tag(P, map[])), open)
    {
      hide Sound;
      hide InScope;
    }

    static lemma ParagraphAgain(tag: Tag, mode: Mode, original: Mode, open0: Stack, open: Stack, active: Entries, head: Option<Element>,
                                t: Tree, rank: map<NodeId, real>, next: NodeId)
      requires Flowing(mode, open, active, t, rank, next) && tag.name.P? && InScope(open, {P}, ButtonScope) && !InScope(open0, {P}, ButtonScope)
      ensures Handled(EndTag(tag), Reprocess(EndTag(tag)), mode, open0, mode, original, open, active, head, t, rank, next)
    {
      FlowRuns(mode, original, open, active, head, t, rank, next);
      hide Running;
      hide Sound;
      hide ZoneOf;
      hide InScope;
    }

    method BodyEndsFormatting(tag: Tag) returns (out: Outcome)
      requires Flowing(mode, open, active, tree, rank, nextId) && IsFormatting(tag.name)
      modifies `open, `active, `tree, `rank, `nextId
      ensures Handled(EndTag(tag), out, old(mode), old(open), mode, originalMode, open, active, headElement, tree, rank, nextId)
      ensures BodyEffect(EndTag(tag), out, mode, old(Snapshot(open, active, tree, nextId)), quirks, scriptingFlag, formElement,
                         mode, Snapshot(open, active, tree, nextId), formElement)
      ensures FaultIs(EndTag(tag), out, mode, old(Snapshot(open, active, tree, nextId)), mode, Snapshot(open, active, tree, nextId))
    {
      hide *;
      ghost var s0 := Snapshot(open, active, tree, nextId);
      FlowInside(mode, open, active, tree, rank, nextId);
      out := AdoptionAgency(tag);
      AdoptionDone(tag, out, mode, originalMode, s0.open, open, active, headElement, tree, rank, nextId);
      AgencyEffect(tag, out, mode, s0, quirks, scriptingFlag, formElement, Snapshot(open, active, tree, nextId));
    }

    static lemma AgencyEffect(tag: Tag, out: Outcome, mode: Mode, s0: Snapshot, quirks: bool, scripting: bool, form: Option<FormElement>, s: Snapshot)
      requires IsFormatting(tag.name) && IsBodyMode(mode) && !out.Reprocess?
      requires s == Rounds(8, s0, tag.name) && out == RoundsOutcome(8, s0, tag.name)
      requires out.Failed? ==> out.fault.BeforeFirstEntry? && s == s0
      requires out.Failed? <==> LooksBefore(s0.open, s0.active, tag.name)
      ensures BodyEffect(EndTag(tag), out, mode, s0, quirks, scripting, form, mode, s, form)
      ensures FaultIs(EndTag(tag), out, mode, s0, mode, s)
    {
      hide *;
      AgencyFaultIs(tag, out, mode, s0, s);
      if out.Failed? {
        FailedStepIs(EndTag(tag), s0);
        EffectFailed(EndTag(tag), out.fault, mode, s0, quirks, scripting, form, s);
      } else {
        EndStepIs(tag, s0, form);
        AgencyIs(s0, tag.name);
        EndingStep(tag, mode, s0, quirks, scripting, form);
        AgencyIgnores(tag, out.ignored, s0);
        EndDone(tag, out.ignored, mode, s0, quirks, scripting, form, mode, s, form);
      }
    }

    static lemma AgencyIs(s: Snapshot, name: Name)
      ensures Agency(s, name) == Rounds(8, s, name)
    {
    }

    static lemma AgencyIgnores(tag: Tag, ignored: bool, s: Snapshot)
      requires IsFormatting(tag.name) && Done(ignored) == RoundsOutcome(8, s, tag.name)
      ensures Ignores(EndTag(tag), ignored, s)
    {
      hide RoundsOutcome;
      hide ClosingPlace;
    }

    static lemma AgencyFaultIs(tag: Tag, out: Outcome, mode: Mode, s0: Snapshot, s: Snapshot)
      requires IsFormatting(tag.name) && IsBodyMode(mode) && !out.Reprocess? && (out.Failed? ==> out.fault.BeforeFirstEntry?)
      requires out.Failed? <==> LooksBefore(s0.open, s0.active, tag.name)
      ensures FaultIs(EndTag(tag), out, mode, s0, mode, s)
    {
      hide LooksBefore;
      hide IsFormatting;
    }

    static lemma AdoptionDone(tag: Tag, out: Outcome, mode: Mode, original: Mode, open0: Stack, open: Stack, active: Entries, head: Option<Element>,
                              t: Tree, rank: map<NodeId, real>, next: NodeId)
      requires Sound(open, active, t, rank, next) && IsBodyMode(mode) && ZoneOf(open) == Home(mode) && IsFormatting(tag.name) && !out.Reprocess?
      ensures Handled(EndTag(tag), out, mode, open0, mode, original, open, active, head, t, rank, next)
    {
      hide Running;
      hide Flowing;
      hide Sound;
      hide ZoneOf;
      SoundParts(open, active, t, rank, next);
      FlowIf(mode, open, active, t, rank, next);
      FlowRuns(mode, original, open, active, head, t, rank, next);
    }

    // The end tags that only close elements.
    method BodyEndsOther(tag: Tag) returns (ignored: bool)
      requires Flowing(mode, open, active, tree, rank, nextId) && ReachesBody(mode, tag.name)
      requires !tag.name.Body? && !tag.name.Html? && !tag.name.P? && !IsFormatting(tag.name)
      modifies `open, `active, `formElement
      ensures Flowing(mode, open, active, tree, rank, nextId)
      ensures !tag.name.Form? ==> Snapshot(open, active, tree, nextId) == ClosedOne(old(Snapshot(open, active, tree, nextId)), tag.name)
      ensures !tag.name.Form? ==> (ignored <==> ClosingPlace(old(open), tag.name) < 0) && formElement == old(formElement)
      ensures tag.name.Form? ==>
                Snapshot(open, active, tree, nextId) == WithoutTheForm(old(Snapshot(open, active, tree, nextId)), old(formElement)) && formElement == None
    {
      hide *;
      var n := tag.name;
      CloserNames(n);
      ClosingPlaceIs(open, n);
      ClosingNames(n);
      ClosedOneIs(Snapshot(open, active, tree, nextId), n);
      NotTheAnchor(mode, open, active, tree, rank, nextId, n);
      if n.Form? {
        ignored := EndForm();
      } else if IsHeading(n) {
        ignored := EndHeading();
      } else if IsBlock(n) || n.Button? || n.Pre? || n.Listing? {
        BlocksArePlain(n);
        BlocksHaveEnds(n);
        ignored := EndBlock(n, {}, Ordinary);
      } else if n.Li? {
        ignored := EndBlock(n, {n}, ListItem);
      } else if n.Dd? || n.Dt? {
        ignored := EndBlock(n, {n}, Ordinary);
      } else if IsEmbedded(n) {
        var inScope := HasElementInScope({n}, Ordinary);
        if inScope {
          CloseMarked(n);
        }
        ignored := !inScope;
      } else {
        ignored := OtherEndTag(tag);
      }
    }

    static lemma ClosedOneIs(s: Snapshot, n: Name)
      ensures var k := ClosingPlace(s.open, n);
              && k <= |s.open|
              && ClosedOne(s, n) == Snapshot(CutAt(s.open, k), if IsEmbedded(n) && k >= 0 then ToLastMarker(s.active) else s.active, s.tree, s.next)
      ensures LastMarker(s.active) >= 0 ==> ToLastMarker(s.active) == s.active[..LastMarker(s.active)]
    {
      hide ClosingPlace;
      hide IsEmbedded;
    }

    static lemma ClosingPlaceIs(open: Stack, n: Name)
      ensures ClosingPlace(open, n) ==
              if IsHeading(n) then (if InScope(open, {H1, H2, H3, H4, H5, H6}, Ordinary) then Topmost(open, {H1, H2, H3, H4, H5, H6}) else -1)
              else if IsBlock(n) || n.Button? || n.Pre? || n.Listing? || n.Dd? || n.Dt? || IsEmbedded(n) then
                (if InScope(open, {n}, Ordinary) then Topmost(open, {n}) else -1)
              else if n.Li? then (if InScope(open, {n}, ListItem) then Topmost(open, {n}) else -1)
              else OtherMatch(open, n)
      ensures forall k :: k <= |open| ==> CutAt(open, k) == if k < 0 then open else open[..k]
    {
      hide InScope;
      hide IsHeading;
      hide IsBlock;
      hide IsEmbedded;
    }

    static lemma ClosingNames(n: Name)
      ensures IsHeading(n) || IsBlock(n) || n.Button? || n.Pre? || n.Listing? || n.Li? || n.Dd? || n.Dt? || n.Form? ==> !IsEmbedded(n)
      ensures IsBlock(n) || n.Button? || n.Pre? || n.Listing? || n.Li? || n.Dd? || n.Dt? ==> !IsHeading(n)
      ensures n.Li? || n.Dd? || n.Dt? ==> !IsBlock(n)
    {
    }

    static lemma CloserNames(n: Name)
      ensures n.Li? || n.Dd? || n.Dt? ==> IsPlain(n)
      ensures n.Li? ==> n == Li && !IsHeading(n) && !IsBlock(n)
      ensures n.Button? ==> n == Button && !IsHeading(n) && !IsEmbedded(n)
    {
    }

    static lemma BlocksArePlain(n: Name)
      requires IsBlock(n) || n.Button? || n.Pre? || n.Listing?
      ensures IsPlain(n)
    {
      hide HoldsNothing;
      BlocksHoldSomething(n);
    }

    static lemma BlocksHoldSomething(n: Name)
      requires IsBlock(n) || n.Button? || n.Pre? || n.Listing?
      ensures !HoldsNothing(n)
    {
    }

    static lemma BlocksHaveEnds(n: Name)
      requires IsBlock(n) || n.Button? || n.Pre? || n.Listing?
      ensures !HasImpliedEnd(n)
    {
    }

    static lemma NotTheAnchor(mode: Mode, open: Stack, active: Entries, t: Tree, rank: map<NodeId, real>, next: NodeId, n: Name)
      requires Flowing(mode, open, active, t, rank, next) && ReachesBody(mode, n) && !n.Body?
      ensures Anchor(open) < 0 || n != open[Anchor(open)].name
    {
      hide Sound;
      hide ZoneOf;
      hide Anchor;
      AnchorOfFlow(open);
    }

    // An element in its scope is closed; otherwise the token is ignored.
    method EndBlock(n: Name, spared: set<Name>, scope: Scope) returns (ignored: bool)
      requires Flowing(mode, open, active, tree, rank, nextId) && IsPlain(n) && !scope.TableScope? && (!HasImpliedEnd(n) || n in spared)
      modifies `open
      ensures Flowing(mode, open, active, tree, rank, nextId)
      ensures ignored <==> !InScope(old(open), {n}, scope)
      ensures if ignored then open == old(open)
              else 0 <= Topmost(old(open), {n}) < |old(open)| && open == old(open)[..Topmost(old(open), {n})]
    {
      hide *;
      var inScope := HasElementInScope({n}, scope);
      if inScope {
        CloseInFlow({n}, spared, scope);
      }
      ignored := !inScope;
    }

    method EndHeading() returns (ignored: bool)
      requires Flowing(mode, open, active, tree, rank, nextId)
      modifies `open
      ensures Flowing(mode, open, active, tree, rank, nextId)
      ensures ignored <==> !InScope(old(open), {H1, H2, H3, H4, H5, H6}, Ordinary)
      ensures if ignored then open == old(open)
              else 0 <= Topmost(old(open), {H1, H2, H3, H4, H5, H6}) && open == old(open)[..Topmost(old(open), {H1, H2, H3, H4, H5, H6})]
    {
      hide *;
      AnyHeading(open);
      HeadingsArePlain();
      var h1 := HasElementInScope({H1}, Ordinary);
      var h2 := HasElementInScope({H2}, Ordinary);
      var h3 := HasElementInScope({H3}, Ordinary);
      var h4 := HasElementInScope({H4}, Ordinary);
      var h5 := HasElementInScope({H5}, Ordinary);
      var h6 := HasElementInScope({H6}, Ordinary);
      if h1 || h2 || h3 || h4 || h5 || h6 {
        CloseInFlow({H1, H2, H3, H4, H5, H6}, {}, Ordinary);
        return false;
      }
      return true;
    }

    static lemma HeadingsArePlain()
      ensures forall n :: n in {H1, H2, H3, H4, H5, H6} ==> IsPlain(n) && !HasImpliedEnd(n)
    {
    }

    static lemma AnyHeading(open: Stack)
      ensures InScope(open, {H1, H2, H3, H4, H5, H6}, Ordinary) <==>
                || InScope(open, {H1}, Ordinary) || InScope(open, {H2}, Ordinary) || InScope(open, {H3}, Ordinary)
                || InScope(open, {H4}, Ordinary) || InScope(open, {H5}, Ordinary) || InScope(open, {H6}, Ordinary)
    {
      hide EndsScope;
      var all := {H1, H2, H3, H4, H5, H6};
      assert forall n :: n in all ==> Topmost(open, {n}) <= Topmost(open, all);
      if Topmost(open, all) >= 0 {
        var n := open[Topmost(open, all)].name;
        assert Topmost(open, {n}) == Topmost(open, all);
      }
    }

    // The form pointer is cleared in any case; its element leaves the stack wherever it is.
    method EndForm() returns (ignored: bool)
      requires Flowing(mode, open, active, tree, rank, nextId)
      modifies `open, `formElement
      ensures Flowing(mode, open, active, tree, rank, nextId) && formElement == None
      ensures ignored <==> old(formElement) == None || !InScope(old(open), {Form}, Ordinary)
      ensures Snapshot(open, active, tree, nextId) == WithoutTheForm(old(Snapshot(open, active, tree, nextId)), old(formElement))
    {
      hide *;
      WithoutTheFormIs(Snapshot(open, active, tree, nextId), formElement);
      var node := formElement;
      formElement := None;
      if node == None {
        return true;
      }
      var form: FormElement := node.value;
      FormsAlike(form);
      var inScope := HasElementInScope({form.name}, Ordinary);
      if !inScope {
        return true;
      }
      ImpliedInFlow(mode, open, active, tree, rank, nextId);
      GenerateImpliedEndTags({});
      DropFromStack(form);
      return false;
    }

    static lemma WithoutTheFormIs(s: Snapshot, form: Option<FormElement>)
      ensures form == None || !InScope(s.open, {Form}, Ordinary) ==> WithoutTheForm(s, form) == s
      ensures form.Some? && InScope(s.open, {Form}, Ordinary) ==>
                var cut := s.open[..ImpliedCut(s.open, {})];
                WithoutTheForm(s, form) ==
                Snapshot(if IndexOf(cut, form.value) < 0 then cut else Removed(cut, IndexOf(cut, form.value)), s.active, s.tree, s.next)
    {
      hide InScope;
    }

    static lemma FormsAlike(e: FormElement)
      ensures e.name == Form && IsPlain(e.name)
    {
    }

    // ---------------------------------------------------------------------------------------------
    // In body

    method BodyRules(token: Token) returns (out: Outcome)
      requires Flowing(mode, open, active, tree, rank, nextId) && TokenReachesBody(mode, token)
      modifies this
      ensures Handled(token, out, old(mode), old(open), mode, originalMode, open, active, headElement, tree, rank, nextId)
      ensures BodyEffect(token, out, old(mode), old(Snapshot(open, active, tree, nextId)), old(quirks), scriptingFlag, old(formElement),
                         mode, Snapshot(open, active, tree, nextId), formElement)
      ensures FaultIs(token, out, old(mode), old(Snapshot(open, active, tree, nextId)), mode, Snapshot(open, active, tree, nextId))
      ensures token.Comment? ==> out == Done(false) && mode == old(mode) && open == old(open) && active == old(active)
      ensures token.Comment? ==> open != [] && Top(open).id in old(tree) && tree == Grown(old(tree), Top(open).id, old(nextId), CommentNode(token.text))
      decreases Need(mode, token, open), Turns(mode, token), |open|, 5
    {
      hide *;
      ghost var s0 := Snapshot(open, active, tree, nextId);
      FlowRuns(mode, originalMode, open, active, headElement, tree, rank, nextId);
      FlowInside(mode, open, active, tree, rank, nextId);
      ReachesMeans(mode, token);
      match token {
        case StartTag(tag) =>
          out := BodyStartTag(tag);
          return;
        case EndTag(tag) =>
          out := BodyEndTag(tag);
          return;
        case EndOfFile =>
          StopParsing();
          out := Done(false);
          Stopped(mode, s0.open, mode, originalMode, open, active, headElement, tree, rank, nextId);
        case Doctype(_) =>
          out := Done(true);
        case Comment(text) =>
          TopInTree(open, active, tree, rank, nextId);
          AppendNode(Top(open).id, CommentNode(text));
          FlowAgain(mode, s0.open, open, active, tree, rank, nextId);
          out := Done(false);
        case Character(data) =>
          var ignored := BodyCharacter(data);
          FlowAgain(mode, s0.open, open, active, tree, rank, nextId);
          out := Done(ignored);
      }
      OtherEffect(token, out.ignored, mode, s0, quirks, scriptingFlag, formElement, Snapshot(open, active, tree, nextId));
      if !token.EndOfFile? {
        FlowDone(token, out.ignored, mode, originalMode, s0.open, open, active, headElement, tree, rank, nextId);
      }
    }

    static lemma OtherEffect(token: Token, ignored: bool, mode: Mode, s0: Snapshot, quirks: bool, scripting: bool, form: Option<FormElement>, s: Snapshot)
      requires match token
               case StartTag(_) => false
               case EndTag(_) => false
               case EndOfFile => s == Snapshot([], s0.active, s0.tree, s0.next)
               case Doctype(_) => s == s0
               case Comment(text) => s0.open != [] && s == Snapshot(s0.open, s0.active, Grown(s0.tree, Top(s0.open).id, s0.next, CommentNode(text)), s0.next + 1)
               case Character(data) => (ignored <==> data == 0 as char) && s == if ignored then s0 else Typed(Reconstructed(s0), data)
      ensures BodyEffect(token, Done(ignored), mode, s0, quirks, scripting, form, mode, s, form)
      ensures FaultIs(token, Done(ignored), mode, s0, mode, s)
    {
      hide Reconstructed;
      hide Typed;
      hide Grown;
    }

    static lemma ReachesMeans(mode: Mode, token: Token)
      requires TokenReachesBody(mode, token)
      ensures token.StartTag? && IsTablePart(token.tag.name) ==> mode.InBody?
      ensures token.EndTag? ==> ReachesBody(mode, token.tag.name)
    {
    }

    static lemma Stopped(mode0: Mode, open0: Stack, mode: Mode, original: Mode, open: Stack, active: Entries, head: Option<Element>,
                         t: Tree, rank: map<NodeId, real>, next: NodeId)
      requires open == [] && Sound(open, active, t, rank, next)
      ensures Handled(EndOfFile, Done(false), mode0, open0, mode, original, open, active, head, t, rank, next)
    {
      hide Sound;
    }

    static lemma FlowAgain(mode: Mode, open0: Stack, open: Stack, active: Entries, t: Tree, rank: map<NodeId, real>, next: NodeId)
      requires Sound(open, active, t, rank, next) && IsBodyMode(mode) && ZoneOf(open0) == Home(mode) && ZoneOf(open) == ZoneOf(open0)
      ensures Flowing(mode, open, active, t, rank, next)
    {
      hide Sound;
      hide ZoneOf;
    }

    // ---------------------------------------------------------------------------------------------
    // Steps that any mode may take

    method CommentHere(text: string)
      requires Running(mode, originalMode, open, active, headElement, tree, rank, nextId) && open != []
      modifies `tree, `rank, `nextId
      ensures Running(mode, originalMode, open, active, headElement, tree, rank, nextId)
      ensures Top(open).id in old(tree) && tree == Grown(old(tree), Top(open).id, old(nextId), CommentNode(text))
    {
      hide *;
      RunningParts(mode, originalMode, open, active, headElement, tree, rank, nextId);
      TopInTree(open, active, tree, rank, nextId);
      TopIs(open);
      AppendNode(open[|open| - 1].id, CommentNode(text));
      StillRuns(mode, originalMode, open, active, headElement, old(tree), old(rank), tree, rank, nextId);
    }

    method CharacterHere(data: char)
      requires Running(mode, originalMode, open, active, headElement, tree, rank, nextId) && open != []
      modifies `tree, `rank, `nextId
      ensures Running(mode, originalMode, open, active, headElement, tree, rank, nextId)
      ensures Top(open).id in old(tree) && tree == WithText(old(tree), Top(open).id, old(nextId), data)
      ensures TextAt(tree, Top(open).id) == TextAt(old(tree), Top(open).id) + [data]
    {
      hide *;
      RunningParts(mode, originalMode, open, active, headElement, tree, rank, nextId);
      NewPlace(open, active, tree, rank, nextId, data);
      InsertCharacter(data);
      StillRuns(mode, originalMode, open, active, headElement, old(tree), old(rank), tree, rank, nextId);
    }

    method VoidHere(tag: Tag) returns (e: Element)
      requires Running(mode, originalMode, open, active, headElement, tree, rank, nextId) && open != [] && !TakesMarker(tag.name)
      modifies `open, `tree, `rank, `nextId
      ensures Running(mode, originalMode, open, active, headElement, tree, rank, nextId) && open == old(open)
      ensures e == NewElement(old(nextId), tag)
      ensures Snapshot(open, active, tree, nextId) == Voided(old(Snapshot(open, active, tree, nextId)), tag)
      ensures Top(open).id in old(tree) && tree == Grown(old(tree), Top(open).id, e.id, ElementNode(e))
    {
      hide *;
      RunningParts(mode, originalMode, open, active, headElement, tree, rank, nextId);
      e := InsertVoid(tag);
      StillRuns(mode, originalMode, open, active, headElement, old(tree), old(rank), tree, rank, nextId);
    }

    method HeadContentHere(tag: Tag)
      requires Running(mode, originalMode, open, active, headElement, tree, rank, nextId) && open != [] && TakesText(mode) && IsHeadContent(tag.name)
      modifies `mode, `originalMode, `open, `tree, `rank, `nextId
      ensures Running(mode, originalMode, open, active, headElement, tree, rank, nextId)
      ensures mode == if IsVoidInHead(tag.name) then old(mode) else Text
      ensures Snapshot(open, active, tree, nextId) == HeadStep(old(Snapshot(open, active, tree, nextId)), tag)
    {
      hide *;
      RunningParts(mode, originalMode, open, active, headElement, tree, rank, nextId);
      ghost var next0 := nextId;
      HeadContent(tag);
      TextRuns(old(mode), old(originalMode), old(open), NewElement(next0, tag), old(tree), old(rank), mode, originalMode, open, active, headElement, tree, rank, nextId);
    }

    method DocumentComment(text: string)
      requires Running(mode, originalMode, open, active, headElement, tree, rank, nextId)
      modifies `tree, `rank, `nextId
      ensures Running(mode, originalMode, open, active, headElement, tree, rank, nextId)
      ensures DOCUMENT in old(tree) && tree == Grown(old(tree), DOCUMENT, old(nextId), CommentNode(text))
    {
      hide *;
      RunningParts(mode, originalMode, open, active, headElement, tree, rank, nextId);
      DocumentInTree(open, active, tree, rank, nextId);
      AppendNode(DOCUMENT, CommentNode(text));
      StillRuns(mode, originalMode, open, active, headElement, old(tree), old(rank), tree, rank, nextId);
    }

    static lemma DocumentInTree(open: Stack, active: Entries, t: Tree, rank: map<NodeId, real>, next: NodeId)
      requires Sound(open, active, t, rank, next)
      ensures DOCUMENT in t && DOCUMENT in rank
    {
      hide Balanced;
    }

    // ---------------------------------------------------------------------------------------------
    // Effects outside a body

    static lemma Uncharted(token: Token, out: Outcome, mode0: Mode, s0: Snapshot, mode: Mode, s: Snapshot)
      requires !HasRegionStep(mode0, token, s0.open)
      ensures RegionEffect(token, out, mode0, s0, mode, s)
    {
      hide HasRegionStep;
    }

    static lemma RegionDone(token: Token, ignored: bool, mode0: Mode, s0: Snapshot, mode: Mode, s: Snapshot)
      requires HasRegionStep(mode0, token, s0.open) ==>
                 s == RegionStep(mode0, token, s0) && mode == RegionMode(mode0, token, s0) && (ignored ==> IsSelectMode(mode0))
      ensures RegionEffect(token, Done(ignored), mode0, s0, mode, s)
    {
      hide HasRegionStep;
      hide RegionStep;
      hide RegionMode;
    }

    static lemma RegionWasDone(token: Token, out: Outcome, mode0: Mode, s0: Snapshot, mode: Mode, s: Snapshot)
      requires RegionEffect(token, out, mode0, s0, mode, s) && HasRegionStep(mode0, token, s0.open) && !out.Reprocess?
      ensures out.Done? && s == RegionStep(mode0, token, s0) && mode == RegionMode(mode0, token, s0) && (out.ignored ==> IsSelectMode(mode0))
    {
      hide HasRegionStep;
      hide RegionStep;
      hide RegionMode;
    }

    static lemma HandledRuns(token: Token, out: Outcome, mode0: Mode, open0: Stack, mode: Mode, original: Mode, open: Stack, active: Entries,
                             head: Option<Element>, t: Tree, rank: map<NodeId, real>, next: NodeId)
      requires Handled(token, out, mode0, open0, mode, original, open, active, head, t, rank, next) && !token.EndOfFile?
      ensures Running(mode, original, open, active, head, t, rank, next)
    {
      hide Running;
      hide Sound;
      hide Smaller;
      hide Onward;
    }

    static lemma HandledFails(token: Token, out: Outcome, mode0: Mode, open0: Stack, mode: Mode, original: Mode, open: Stack, active: Entries,
                              head: Option<Element>, t: Tree, rank: map<NodeId, real>, next: NodeId)
      requires Handled(token, out, mode0, open0, mode, original, open, active, head, t, rank, next)
      ensures out.Failed? ==> MayFail(token)
    {
      hide Running;
      hide Sound;
      hide Smaller;
      hide Onward;
    }

    // Before the body only what is left out fails, and only once it gets there.
    static lemma FaultsBeforeBody(token: Token, mode0: Mode, s0: Snapshot, mode: Mode, s: Snapshot)
      requires IsBeforeBody(mode0)
      ensures IsBeforeBody(mode) ==> FaultIs(token, Reprocess(token), mode0, s0, mode, s)
      ensures !(token.StartTag? && (token.tag.name.Math? || token.tag.name.Svg?)) ==>
                forall ignored :: FaultIs(token, Done(ignored), mode0, s0, mode, s)
    {
      hide AgencyFails;
      hide InScope;
    }

    // ---------------------------------------------------------------------------------------------
    // Text

    method TextRules(token: Token) returns (out: Outcome)
      requires Running(mode, originalMode, open, active, headElement, tree, rank, nextId) && mode.Text?
      modifies this
      ensures Handled(token, out, old(mode), old(open), mode, originalMode, open, active, headElement, tree, rank, nextId)
      ensures token.EndTag? || token.EndOfFile? ==> old(open) != [] && open == old(open)[..|old(open)| - 1] && mode == old(originalMode)
      ensures out == if token.EndOfFile? then Reprocess(token) else Done(false)
      ensures token.Character? ==>
                && open == old(open) && open != [] && mode.Text?
                && TextAt(tree, Top(open).id) == TextAt(old(tree), Top(open).id) + [token.data]
    {
      hide *;
      ghost var open0 := open;
      RunningParts(mode, originalMode, open, active, headElement, tree, rank, nextId);
      TextEnds(originalMode, open, active, headElement, tree, rank, nextId);
      match token {
        case Character(data) =>
          CharacterHere(data);
        case EndOfFile =>
          PopCurrentNode();
          SwitchMode(originalMode);
          TextAgain(token, open0, mode);
          NextMode(token, Text, open0, mode, originalMode, open, active, headElement, tree, rank, nextId);
          return Reprocess(token);
        case EndTag(_) =>
          PopCurrentNode();
          SwitchMode(originalMode);
        case _ =>
      }
      DoneWith(token, false, Text, open0, mode, originalMode, open, active, headElement, tree, rank, nextId);
      return Done(false);
    }

    static lemma TextEnds(original: Mode, open: Stack, active: Entries, head: Option<Element>, t: Tree, rank: map<NodeId, real>, next: NodeId)
      requires Running(Text, original, open, active, head, t, rank, next)
      ensures open != [] && TakesText(original) && !original.Text? && !original.InTableText?
      ensures Running(original, original, open[..|open| - 1], active, head, t, rank, next)
    {
      hide IsPlain;
      SoundCut(open, active, t, rank, next, |open| - 1);
      hide Sound;
      HtmlAlone(Below(open));
    }

    static lemma TextAgain(token: Token, open0: Stack, mode: Mode)
      requires token.EndOfFile? && TakesText(mode)
      ensures Steps(mode, token) < Steps(Text, token) && Need(Text, token, open0) == 2 && Follows(Text, token, mode)
    {
    }

    // ---------------------------------------------------------------------------------------------
    // Before the head

    method InitialRules(token: Token) returns (out: Outcome)
      requires Running(mode, originalMode, open, active, headElement, tree, rank, nextId) && mode.Initial?
      modifies this
      ensures Handled(token, out, old(mode), old(open), mode, originalMode, open, active, headElement, tree, rank, nextId)
      ensures FaultIs(token, out, old(mode), old(Snapshot(open, active, tree, nextId)), mode, Snapshot(open, active, tree, nextId))
      ensures token.Comment? ==> out == Done(false) && mode == old(mode) && open == old(open) && active == old(active)
      ensures token.Comment? ==> DOCUMENT in old(tree) && tree == Grown(old(tree), DOCUMENT, old(nextId), CommentNode(token.text))
      ensures token.Doctype? ==> out == Done(false) && mode.BeforeHtml? && open == old(open) && active == old(active) && quirks == token.quirks
      ensures token.Doctype? ==> DOCUMENT in old(tree) && tree == Grown(old(tree), DOCUMENT, old(nextId), DoctypeNode)
      ensures out.Reprocess? ==> mode.BeforeHtml? && Snapshot(open, active, tree, nextId) == old(Snapshot(open, active, tree, nextId))
      ensures out.Reprocess? ==> quirks == (old(quirks) || !isIframe)
    {
      hide *;
      ghost var s0 := Snapshot(open, active, tree, nextId);
      BeforeBodyModes();
      InitialFacts(token, originalMode, open, active, headElement, tree, rank, nextId);
      if token.Character? && IsWhitespace(token.data) {
        out := Done(true);
      } else if token.Comment? {
        DocumentComment(token.text);
        out := Done(false);
      } else if token.Doctype? {
        InsertDoctype(token.quirks);
        InitialFacts(token, originalMode, open, active, headElement, tree, rank, nextId);
        SwitchMode(BeforeHtml);
        out := Done(false);
      } else {
        quirks := quirks || !isIframe;
        SwitchMode(BeforeHtml);
        NextMode(token, Initial, s0.open, mode, originalMode, open, active, headElement, tree, rank, nextId);
        FaultsBeforeBody(token, Initial, s0, mode, Snapshot(open, active, tree, nextId));
        return Reprocess(token);
      }
      FaultsBeforeBody(token, Initial, s0, mode, Snapshot(open, active, tree, nextId));
      DoneWith(token, out.ignored, Initial, s0.open, mode, originalMode, open, active, headElement, tree, rank, nextId);
    }

    static lemma BeforeBodyModes()
      ensures forall mode: Mode :: IsBeforeBody(mode) <==>
                mode.Initial? || mode.BeforeHtml? || mode.BeforeHead? || mode.InHead? || mode.InHeadNoscript? || mode.AfterHead?
    {
    }

    method InsertDoctype(isQuirky: bool)
      requires Running(mode, originalMode, open, active, headElement, tree, rank, nextId)
      modifies `tree, `rank, `nextId, `quirks
      ensures Running(mode, originalMode, open, active, headElement, tree, rank, nextId) && quirks == isQuirky
      ensures DOCUMENT in old(tree) && tree == Grown(old(tree), DOCUMENT, old(nextId), DoctypeNode)
    {
      hide *;
      RunningParts(mode, originalMode, open, active, headElement, tree, rank, nextId);
      DocumentInTree(open, active, tree, rank, nextId);
      AppendNode(DOCUMENT, DoctypeNode);
      StillRuns(mode, originalMode, open, active, headElement, old(tree), old(rank), tree, rank, nextId);
      quirks := isQuirky;
    }

    static lemma InitialFacts(token: Token, original: Mode, open: Stack, active: Entries, head: Option<Element>, t: Tree, rank: map<NodeId, real>, next: NodeId)
      requires Running(Initial, original, open, active, head, t, rank, next)
      ensures Running(BeforeHtml, original, open, active, head, t, rank, next)
      ensures Steps(BeforeHtml, token) < Steps(Initial, token) && Need(Initial, token, open) == 2 && Follows(Initial, token, BeforeHtml)
    {
      hide Sound;
      hide InScope;
    }

    method BeforeHtmlRules(token: Token) returns (out: Outcome)
      requires Running(mode, originalMode, open, active, headElement, tree, rank, nextId) && mode.BeforeHtml?
      modifies this
      ensures Handled(token, out, old(mode), old(open), mode, originalMode, open, active, headElement, tree, rank, nextId)
      ensures FaultIs(token, out, old(mode), old(Snapshot(open, active, tree, nextId)), mode, Snapshot(open, active, tree, nextId))
      ensures token.Comment? ==> out == Done(false) && mode == old(mode) && open == old(open) && active == old(active)
      ensures token.Comment? ==> DOCUMENT in old(tree) && tree == Grown(old(tree), DOCUMENT, old(nextId), CommentNode(token.text))
      ensures token.StartTag? && token.tag.name.Html? ==>
                && mode.BeforeHead? && open == [NewElement(old(nextId), token.tag)]
                && DOCUMENT in old(tree) && tree == Grown(old(tree), DOCUMENT, old(nextId), ElementNode(NewElement(old(nextId), token.tag)))
      ensures out.Reprocess? ==>
                && mode.BeforeHead? && open == [NewElement(old(nextId), Tag(Html, map[]))]
                && tree == Created(old(tree), old(nextId), ElementNode(NewElement(old(nextId), Tag(Html, map[]))))
    {
      hide *;
      ghost var s0 := Snapshot(open, active, tree, nextId);
      BeforeBodyModes();
      BeforeHtmlFacts(token, open);
      if token.Doctype? || (token.Character? && IsWhitespace(token.data)) {
        out := Done(true);
      } else if token.Comment? {
        DocumentComment(token.text);
        out := Done(false);
      } else if token.StartTag? && token.tag.name.Html? {
        InsertRoot(token.tag, true);
        out := Done(false);
      } else if token.EndTag? && !(token.tag.name.Head? || token.tag.name.Body? || token.tag.name.Html? || token.tag.name.Br?) {
        out := Done(true);
      } else {
        // The implied root is pushed but never appended to the document.
        InsertRoot(Tag(Html, map[]), false);
        NextMode(token, BeforeHtml, s0.open, mode, originalMode, open, active, headElement, tree, rank, nextId);
        FaultsBeforeBody(token, BeforeHtml, s0, mode, Snapshot(open, active, tree, nextId));
        return Reprocess(token);
      }
      FaultsBeforeBody(token, BeforeHtml, s0, mode, Snapshot(open, active, tree, nextId));
      DoneWith(token, out.ignored, BeforeHtml, s0.open, mode, originalMode, open, active, headElement, tree, rank, nextId);
    }

    static lemma BeforeHtmlFacts(token: Token, open: Stack)
      ensures Steps(BeforeHead, token) < Steps(BeforeHtml, token) && Need(BeforeHtml, token, open) == 2 && Follows(BeforeHtml, token, BeforeHead)
    {
      hide InScope;
    }

    method InsertRoot(tag: Tag, attached: bool)
      requires Running(mode, originalMode, open, active, headElement, tree, rank, nextId) && mode.BeforeHtml? && tag.name.Html?
      modifies `mode, `originalMode, `open, `tree, `rank, `nextId
      ensures mode.BeforeHead? && Running(mode, originalMode, open, active, headElement, tree, rank, nextId)
      ensures open == [NewElement(old(nextId), tag)]
      ensures DOCUMENT in old(tree) && tree == if attached then Grown(old(tree), DOCUMENT, old(nextId), ElementNode(NewElement(old(nextId), tag)))
                                               else Created(old(tree), old(nextId), ElementNode(NewElement(old(nextId), tag)))
    {
      hide *;
      RootRuns(originalMode, open, active, headElement, tree, rank, nextId, tag);
      GrownIs(tree, DOCUMENT, nextId, ElementNode(NewElement(nextId, tag)));
      NamedAfter(nextId, tag);
      rank := rank[nextId := rank[DOCUMENT] + 1.0];
      var e := CreateAnElement(tag);
      if attached {
        tree := Appended(tree, DOCUMENT, e.id);
      }
      open := open + [e];
      SwitchMode(BeforeHead);
    }

    static lemma GrownIs(t: Tree, place: NodeId, id: NodeId, content: Content)
      ensures Grown(t, place, id, content) == Appended(Created(t, id, content), place, id)
    {
    }

    static lemma RootRuns(original: Mode, open: Stack, active: Entries, head: Option<Element>, t: Tree, rank: map<NodeId, real>, next: NodeId, tag: Tag)
      requires Running(BeforeHtml, original, open, active, head, t, rank, next) && tag.name.Html?
      ensures open == [] && open + [NewElement(next, tag)] == [NewElement(next, tag)]
      ensures DOCUMENT in t && DOCUMENT in rank
      ensures Running(BeforeHead, original, [NewElement(next, tag)], active, head, Grown(t, DOCUMENT, next, ElementNode(NewElement(next, tag))),
                      rank[next := rank[DOCUMENT] + 1.0], next + 1)
      ensures Running(BeforeHead, original, [NewElement(next, tag)], active, head, Created(t, next, ElementNode(NewElement(next, tag))),
                      rank[next := rank[DOCUMENT] + 1.0], next + 1)
    {
      hide Sound;
      hide Linked;
      hide Ranked;
      hide Reaches;
      hide Grown;
      hide Created;
      HtmlAlone(open);
      var e := NewElement(next, tag);
      RootLineages(open, active, t, rank, next, e);
      assert Below([e]) == [];
      RootSound(active, t, next, Grown(t, DOCUMENT, next, ElementNode(e)), rank[next := rank[DOCUMENT] + 1.0], e);
      RootSound(active, t, next, Created(t, next, ElementNode(e)), rank[next := rank[DOCUMENT] + 1.0], e);
    }

    static lemma RootLineages(open: Stack, active: Entries, t: Tree, rank: map<NodeId, real>, next: NodeId, e: Element)
      requires Sound(open, active, t, rank, next) && e.id == next
      ensures DOCUMENT in t && DOCUMENT in rank && next !in t && WellFormed(active) && Bounded(active, t, next)
      ensures Linked(Grown(t, DOCUMENT, next, ElementNode(e))) && Ranked(Grown(t, DOCUMENT, next, ElementNode(e)), rank[next := rank[DOCUMENT] + 1.0])
      ensures Linked(Created(t, next, ElementNode(e))) && Ranked(Created(t, next, ElementNode(e)), rank[next := rank[DOCUMENT] + 1.0])
      ensures Grown(t, DOCUMENT, next, ElementNode(e)).Keys == t.Keys + {next} && Created(t, next, ElementNode(e)).Keys == t.Keys + {next}
      ensures Grown(t, DOCUMENT, next, ElementNode(e))[next].content == ElementNode(e) == Created(t, next, ElementNode(e))[next].content
    {
      hide Balanced;
      hide Edge;
      hide Reaches;
      assert Linked(t) && Ranked(t, rank);
      GrownKeeps(t, rank, DOCUMENT, next, ElementNode(e));
      CreatedKeeps(t, rank, next, ElementNode(e), rank[DOCUMENT] + 1.0);
    }

    static lemma RootSound(active: Entries, t0: Tree, next: NodeId, t: Tree, rank: map<NodeId, real>, e: Element)
      requires active == [] && e.name.Html? && e.id == next && Bounded(active, t0, next)
      requires Linked(t) && Ranked(t, rank) && t.Keys == t0.Keys + {next} && t[next].content == ElementNode(e)
      ensures Sound([e], active, t, rank, next + 1)
    {
      hide Linked;
      hide Ranked;
      hide Reaches;
      ReachesSelf(t, next);
      RootBalanced(e, active);
    }

    static lemma RootBalanced(e: Element, active: Entries)
      requires e.name.Html? && active == []
      ensures Balanced([e], active)
    {
      OneTaker(e);
    }

    method BeforeHeadRules(token: Token) returns (out: Outcome)
      requires Running(mode, originalMode, open, active, headElement, tree, rank, nextId) && mode.BeforeHead?
      modifies this
      ensures Handled(token, out, old(mode), old(open), mode, originalMode, open, active, headElement, tree, rank, nextId)
      ensures RegionEffect(token, out, old(mode), old(Snapshot(open, active, tree, nextId)), mode, Snapshot(open, active, tree, nextId))
      ensures FaultIs(token, out, old(mode), old(Snapshot(open, active, tree, nextId)), mode, Snapshot(open, active, tree, nextId))
      ensures token.Comment? ==> out == Done(false) && mode == old(mode) && open == old(open) && active == old(active)
      ensures token.Comment? ==> open != [] && Top(open).id in old(tree) && tree == Grown(old(tree), Top(open).id, old(nextId), CommentNode(token.text))
      ensures token.StartTag? && token.tag.name.Head? ==> headElement == Some(NewElement(old(nextId), token.tag))
      ensures out.Reprocess? ==> mode.InHead? && Snapshot(open, active, tree, nextId) == Opened(old(Snapshot(open, active, tree, nextId)), Tag(Head, map[]))
      decreases Need(mode, token, open), Turns(mode, token), |open|, 7
    {
      hide *;
      ghost var s0 := Snapshot(open, active, tree, nextId);
      BeforeBodyModes();
      RunningParts(mode, originalMode, open, active, headElement, tree, rank, nextId);
      BeforeHeadFacts(token, open);
      BeforeHeadSteps(token, s0);
      BeforeHeadSteps(StartTag(Tag(Head, map[])), s0);
      if token.Doctype? || (token.Character? && IsWhitespace(token.data)) {
        out := Done(true);
      } else if token.Comment? {
        CommentHere(token.text);
        out := Done(false);
      } else if token.StartTag? && token.tag.name.Html? {
        out := Done(false);
      } else if token.StartTag? && token.tag.name.Head? {
        HeadOpens(originalMode, open, active, headElement, tree, rank, nextId, token.tag);
        var e := InsertAnElement(token.tag);
        headElement := Some(e);
        SwitchMode(InHead);
        out := Done(false);
      } else if token.EndTag? && !(token.tag.name.Head? || token.tag.name.Body? || token.tag.name.Html? || token.tag.name.Br?) {
        out := Done(true);
      } else {
        var simulated := Dispatch(StartTag(Tag(Head, map[])));
        HandledRuns(StartTag(Tag(Head, map[])), simulated, BeforeHead, s0.open, mode, originalMode, open, active, headElement, tree, rank, nextId);
        RegionWasDone(StartTag(Tag(Head, map[])), simulated, BeforeHead, s0, mode, Snapshot(open, active, tree, nextId));
        NextMode(token, BeforeHead, s0.open, mode, originalMode, open, active, headElement, tree, rank, nextId);
        FaultsBeforeBody(token, BeforeHead, s0, mode, Snapshot(open, active, tree, nextId));
        Uncharted(token, Reprocess(token), BeforeHead, s0, mode, Snapshot(open, active, tree, nextId));
        return Reprocess(token);
      }
      RegionDone(token, out.ignored, BeforeHead, s0, mode, Snapshot(open, active, tree, nextId));
      FaultsBeforeBody(token, BeforeHead, s0, mode, Snapshot(open, active, tree, nextId));
      DoneWith(token, out.ignored, BeforeHead, s0.open, mode, originalMode, open, active, headElement, tree, rank, nextId);
    }

    static lemma BeforeHeadFacts(token: Token, open: Stack)
      ensures Steps(InHead, token) < Steps(BeforeHead, token) && Follows(BeforeHead, token, InHead)
      ensures !(token.StartTag? && token.tag.name.Head?) ==> Need(BeforeHead, token, open) == 2
      ensures Need(BeforeHead, StartTag(Tag(Head, map[])), open) == 0
    {
      hide InScope;
    }

    static lemma BeforeHeadSteps(token: Token, s: Snapshot)
      ensures HasRegionStep(BeforeHead, token, s.open) <==> token.StartTag? && token.tag.name.Head?
      ensures token.StartTag? && token.tag.name.Head? ==>
                RegionStep(BeforeHead, token, s) == Opened(s, token.tag) && RegionMode(BeforeHead, token, s) == InHead
    {
      hide Opened;
      hide InScope;
    }

    static lemma HeadOpens(original: Mode, open: Stack, active: Entries, head: Option<Element>, t: Tree, rank: map<NodeId, real>, next: NodeId, tag: Tag)
      requires Running(BeforeHead, original, open, active, head, t, rank, next) && tag.name.Head?
      ensures open != [] && Grounded(open, active, t, rank, next)
      ensures var e := NewElement(next, tag);
              var u, later := Grown(t, Top(open).id, next, ElementNode(e)), rank[next := (if Top(open).id in rank then rank[Top(open).id] else 0.0) + 1.0];
              Running(InHead, original, open + [e], active, Some(e), u, later, next + 1)
    {
      HtmlAlone(open);
      var e := NewElement(next, tag);
      SoundParts(open, active, t, rank, next);
      assert !TakesMarker(tag.name);
      hide Sound;
      InsertedElement(open, active, t, rank, next, tag);
      var u, later := Grown(t, Top(open).id, next, ElementNode(e)), rank[next := rank[Top(open).id] + 1.0];
      hide Grounded;
      hide Balanced;
      hide Grown;
      PartsSound(open + [e], active, u, later, next + 1);
      NewHeadKept(open, e, active, u, later, next + 1);
      assert Below(open + [e]) == open;
    }

    static lemma NewHeadKept(open: Stack, e: Element, active: Entries, t: Tree, rank: map<NodeId, real>, next: NodeId)
      requires Grounded(open + [e], active, t, rank, next) && |open| == 1 && e.name.Head?
      ensures HeadKept(Some(e), open + [e], t, rank)
    {
      var stack := open + [e];
      assert stack[1] == e;
      RanksOfStack(t, rank, stack);
      hide Linked;
      hide Ranked;
      hide Reaches;
    }

    // ---------------------------------------------------------------------------------------------
    // In and after the head

    method HeadRules(token: Token) returns (out: Outcome)
      requires Running(mode, originalMode, open, active, headElement, tree, rank, nextId) && mode.InHead?
      modifies this
      ensures Handled(token, out, old(mode), old(open), mode, originalMode, open, active, headElement, tree, rank, nextId)
      ensures RegionEffect(token, out, old(mode), old(Snapshot(open, active, tree, nextId)), mode, Snapshot(open, active, tree, nextId))
      ensures FaultIs(token, out, old(mode), old(Snapshot(open, active, tree, nextId)), mode, Snapshot(open, active, tree, nextId))
      ensures token.Comment? ==> out == Done(false) && mode == old(mode) && open == old(open) && active == old(active)
      ensures token.Comment? ==> open != [] && Top(open).id in old(tree) && tree == Grown(old(tree), Top(open).id, old(nextId), CommentNode(token.text))
      ensures token.StartTag? && token.tag.name.Noscript? ==>
                && mode == (if scriptingFlag then Text else InHeadNoscript)
                && Snapshot(open, active, tree, nextId) == Opened(old(Snapshot(open, active, tree, nextId)), token.tag)
      ensures out.Reprocess? ==> mode.AfterHead? && Snapshot(open, active, tree, nextId) == Closed(old(Snapshot(open, active, tree, nextId)))
      decreases Need(mode, token, open), Turns(mode, token), |open|, 7
    {
      hide *;
      ghost var s0 := Snapshot(open, active, tree, nextId);
      BeforeBodyModes();
      RunningParts(mode, originalMode, open, active, headElement, tree, rank, nextId);
      HeadFacts(token, open);
      HeadSteps(token, s0);
      HeadSteps(EndTag(Tag(Head, map[])), s0);
      ClosedIs(s0);
      if token.Character? && IsWhitespace(token.data) {
        CharacterHere(token.data);
        out := Done(false);
      } else if token.Comment? {
        CommentHere(token.text);
        out := Done(false);
      } else if token.Doctype? || (token.StartTag? && token.tag.name.Head?) {
        out := Done(true);
      } else if token.StartTag? && token.tag.name.Html? {
        out := Done(false);
      } else if token.StartTag? && IsHeadContent(token.tag.name) {
        HeadContentHere(token.tag);
        out := Done(false);
      } else if token.StartTag? && token.tag.name.Noscript? {
        OpenNoscript(token.tag);
        out := Done(false);
      } else if token.EndTag? && token.tag.name.Head? {
        HeadCloses(originalMode, open, active, headElement, tree, rank, nextId);
        PopCurrentNode();
        SwitchMode(AfterHead);
        out := Done(false);
      } else if token.EndTag? && !(token.tag.name.Body? || token.tag.name.Html? || token.tag.name.Br?) {
        out := Done(true);
      } else {
        var simulated := Dispatch(EndTag(Tag(Head, map[])));
        HandledRuns(EndTag(Tag(Head, map[])), simulated, InHead, s0.open, mode, originalMode, open, active, headElement, tree, rank, nextId);
        RegionWasDone(EndTag(Tag(Head, map[])), simulated, InHead, s0, mode, Snapshot(open, active, tree, nextId));
        NextMode(token, InHead, s0.open, mode, originalMode, open, active, headElement, tree, rank, nextId);
        FaultsBeforeBody(token, InHead, s0, mode, Snapshot(open, active, tree, nextId));
        Uncharted(token, Reprocess(token), InHead, s0, mode, Snapshot(open, active, tree, nextId));
        return Reprocess(token);
      }
      RegionDone(token, out.ignored, InHead, s0, mode, Snapshot(open, active, tree, nextId));
      FaultsBeforeBody(token, InHead, s0, mode, Snapshot(open, active, tree, nextId));
      DoneWith(token, out.ignored, InHead, s0.open, mode, originalMode, open, active, headElement, tree, rank, nextId);
    }

    static lemma ClosedIs(s: Snapshot)
      ensures s.open != [] ==> Closed(s) == Snapshot(s.open[..|s.open| - 1], s.active, s.tree, s.next)
    {
    }

    static lemma HeadFacts(token: Token, open: Stack)
      ensures Steps(AfterHead, token) < Steps(InHead, token) && TakesText(InHead) && Follows(InHead, token, AfterHead)
      ensures !(token.EndTag? && token.tag.name.Head?) ==> Need(InHead, token, open) == 2
      ensures Need(InHead, EndTag(Tag(Head, map[])), open) == 0
    {
      hide InScope;
    }

    static lemma HeadSteps(token: Token, s: Snapshot)
      ensures HasRegionStep(InHead, token, s.open) <==>
                (token.StartTag? && IsHeadContent(token.tag.name)) || (token.EndTag? && token.tag.name.Head?)
      ensures token.StartTag? && IsHeadContent(token.tag.name) ==>
                && !token.tag.name.Head? && !token.tag.name.Html? && !token.tag.name.Noscript? && !token.tag.name.Math? && !token.tag.name.Svg?
                && RegionStep(InHead, token, s) == HeadStep(s, token.tag)
                && RegionMode(InHead, token, s) == if IsVoidInHead(token.tag.name) then InHead else Text
      ensures token.EndTag? && token.tag.name.Head? ==> RegionStep(InHead, token, s) == Closed(s) && RegionMode(InHead, token, s) == AfterHead
    {
      hide HeadStep;
      hide Closed;
      hide InScope;
    }

    static lemma HeadCloses(original: Mode, open: Stack, active: Entries, head: Option<Element>, t: Tree, rank: map<NodeId, real>, next: NodeId)
      requires Running(InHead, original, open, active, head, t, rank, next)
      ensures open != [] && Running(AfterHead, original, open[..|open| - 1], active, head, t, rank, next)
    {
      HtmlAlone(open);
      SoundCut(open, active, t, rank, next, |open| - 1);
      hide Sound;
      hide Reaches;
    }

    // Without scripting a noscript holds elements, with scripting text.
    method OpenNoscript(tag: Tag)
      requires Running(mode, originalMode, open, active, headElement, tree, rank, nextId) && mode.InHead? && tag.name.Noscript?
      modifies `mode, `originalMode, `open, `tree, `rank, `nextId
      ensures Running(mode, originalMode, open, active, headElement, tree, rank, nextId)
      ensures mode == (if scriptingFlag then Text else InHeadNoscript)
      ensures Snapshot(open, active, tree, nextId) == Opened(old(Snapshot(open, active, tree, nextId)), tag)
    {
      hide *;
      ghost var open0, tree0, rank0, next0 := open, tree, rank, nextId;
      RunningParts(mode, originalMode, open, active, headElement, tree, rank, nextId);
      NoscriptOpens(mode, originalMode, open, active, headElement, tree, rank, nextId, tag);
      if scriptingFlag {
        RawText(tag);
        TextHolders(tag.name);
        TextOpened(InHead, old(originalMode), open0, next0, tag, mode, originalMode, open);
        TextRuns(InHead, old(originalMode), open0, NewElement(next0, tag), tree0, rank0, mode, originalMode, open, active, headElement, tree, rank, nextId);
      } else {
        SoundParts(open, active, tree, rank, nextId);
        VoidKeepsHead(open, active, tree, rank, nextId, tag, headElement);
        var _ := InsertAnElement(tag);
        SwitchMode(InHeadNoscript);
        PartsSound(open, active, tree, rank, nextId);
        NoscriptRuns(originalMode, open, active, headElement, tree, rank, nextId);
      }
    }

    static lemma NoscriptOpens(mode: Mode, original: Mode, open: Stack, active: Entries, head: Option<Element>, t: Tree, rank: map<NodeId, real>, next: NodeId, tag: Tag)
      requires Running(mode, original, open, active, head, t, rank, next) && mode.InHead? && tag.name.Noscript?
      ensures open != [] && !TakesMarker(tag.name) && active == [] && HeadKept(head, open, t, rank) && TakesText(mode)
      ensures ZoneOf(open + [NewElement(next, tag)]) == NoscriptZone
    {
      hide Sound;
      hide Reaches;
      HtmlAlone(open);
      assert Below(open + [NewElement(next, tag)]) == open;
    }

    static lemma NoscriptRuns(original: Mode, open: Stack, active: Entries, head: Option<Element>, t: Tree, rank: map<NodeId, real>, next: NodeId)
      requires Sound(open, active, t, rank, next) && active == [] && HeadKept(head, open, t, rank) && ZoneOf(open) == NoscriptZone
      ensures Running(InHeadNoscript, original, open, active, head, t, rank, next)
    {
      hide Sound;
      hide HeadKept;
      hide ZoneOf;
    }

    method NoscriptRules(token: Token) returns (out: Outcome)
      requires Running(mode, originalMode, open, active, headElement, tree, rank, nextId) && mode.InHeadNoscript?
      modifies this
      ensures Handled(token, out, old(mode), old(open), mode, originalMode, open, active, headElement, tree, rank, nextId)
      ensures RegionEffect(token, out, old(mode), old(Snapshot(open, active, tree, nextId)), mode, Snapshot(open, active, tree, nextId))
      ensures FaultIs(token, out, old(mode), old(Snapshot(open, active, tree, nextId)), mode, Snapshot(open, active, tree, nextId))
      ensures token.Comment? ==> out == Done(false) && mode == old(mode) && open == old(open) && active == old(active)
      ensures token.Comment? ==> open != [] && Top(open).id in old(tree) && tree == Grown(old(tree), Top(open).id, old(nextId), CommentNode(token.text))
      ensures out.Reprocess? ==> mode.InHead? && Snapshot(open, active, tree, nextId) == Closed(old(Snapshot(open, active, tree, nextId)))
      decreases Need(mode, token, open), Turns(mode, token), |open|, 7
    {
      hide *;
      ghost var s0 := Snapshot(open, active, tree, nextId);
      BeforeBodyModes();
      RunningParts(mode, originalMode, open, active, headElement, tree, rank, nextId);
      NoscriptFacts(token, open);
      NoscriptSteps(token, s0);
      NoscriptSteps(EndTag(Tag(Noscript, map[])), s0);
      ClosedIs(s0);
      if token.Character? && IsWhitespace(token.data) {
        CharacterHere(token.data);
        out := Done(false);
      } else if token.Comment? {
        CommentHere(token.text);
        out := Done(false);
      } else if token.Doctype? || (token.StartTag? && (token.tag.name.Head? || token.tag.name.Noscript?)) {
        out := Done(true);
      } else if token.StartTag? && token.tag.name.Html? {
        out := Done(false);
      } else if token.StartTag? && IsNoscriptContent(token.tag.name) {
        HeadContentHere(token.tag);
        out := Done(false);
      } else if token.EndTag? && token.tag.name.Noscript? {
        NoscriptCloses(originalMode, open, active, headElement, tree, rank, nextId);
        PopCurrentNode();
        SwitchMode(InHead);
        out := Done(false);
      } else if token.EndTag? && !token.tag.name.Br? {
        out := Done(true);
      } else {
        var simulated := Dispatch(EndTag(Tag(Noscript, map[])));
        HandledRuns(EndTag(Tag(Noscript, map[])), simulated, InHeadNoscript, s0.open, mode, originalMode, open, active, headElement, tree, rank, nextId);
        RegionWasDone(EndTag(Tag(Noscript, map[])), simulated, InHeadNoscript, s0, mode, Snapshot(open, active, tree, nextId));
        NextMode(token, InHeadNoscript, s0.open, mode, originalMode, open, active, headElement, tree, rank, nextId);
        FaultsBeforeBody(token, InHeadNoscript, s0, mode, Snapshot(open, active, tree, nextId));
        Uncharted(token, Reprocess(token), InHeadNoscript, s0, mode, Snapshot(open, active, tree, nextId));
        return Reprocess(token);
      }
      RegionDone(token, out.ignored, InHeadNoscript, s0, mode, Snapshot(open, active, tree, nextId));
      FaultsBeforeBody(token, InHeadNoscript, s0, mode, Snapshot(open, active, tree, nextId));
      DoneWith(token, out.ignored, InHeadNoscript, s0.open, mode, originalMode, open, active, headElement, tree, rank, nextId);
    }

    static lemma NoscriptFacts(token: Token, open: Stack)
      ensures Steps(InHead, token) < Steps(InHeadNoscript, token) && TakesText(InHeadNoscript) && Follows(InHeadNoscript, token, InHead)
      ensures !(token.EndTag? && token.tag.name.Noscript?) ==> Need(InHeadNoscript, token, open) == 2
      ensures Need(InHeadNoscript, EndTag(Tag(Noscript, map[])), open) == 0
      ensures token.StartTag? && IsNoscriptContent(token.tag.name) ==> IsHeadContent(token.tag.name)
    {
      hide InScope;
    }

    static lemma NoscriptSteps(token: Token, s: Snapshot)
      ensures HasRegionStep(InHeadNoscript, token, s.open) <==>
                (token.StartTag? && IsNoscriptContent(token.tag.name)) || (token.EndTag? && token.tag.name.Noscript?)
      ensures token.StartTag? && IsNoscriptContent(token.tag.name) ==>
                && !token.tag.name.Head? && !token.tag.name.Html? && !token.tag.name.Noscript? && !token.tag.name.Math? && !token.tag.name.Svg?
                && RegionStep(InHeadNoscript, token, s) == HeadStep(s, token.tag)
                && RegionMode(InHeadNoscript, token, s) == if IsVoidInHead(token.tag.name) then InHeadNoscript else Text
      ensures token.EndTag? && token.tag.name.Noscript? ==>
                RegionStep(InHeadNoscript, token, s) == Closed(s) && RegionMode(InHeadNoscript, token, s) == InHead
    {
      hide HeadStep;
      hide Closed;
      hide InScope;
    }

    static lemma NoscriptCloses(original: Mode, open: Stack, active: Entries, head: Option<Element>, t: Tree, rank: map<NodeId, real>, next: NodeId)
      requires Running(InHeadNoscript, original, open, active, head, t, rank, next)
      ensures open != [] && Running(InHead, original, open[..|open| - 1], active, head, t, rank, next)
    {
      HtmlAlone(Below(open));
      SoundCut(open, active, t, rank, next, |open| - 1);
      hide Sound;
      hide Reaches;
    }

    method AfterHeadRules(token: Token) returns (out: Outcome)
      requires Running(mode, originalMode, open, active, headElement, tree, rank, nextId) && mode.AfterHead?
      modifies this
      ensures Handled(token, out, old(mode), old(open), mode, originalMode, open, active, headElement, tree, rank, nextId)
      ensures RegionEffect(token, out, old(mode), old(Snapshot(open, active, tree, nextId)), mode, Snapshot(open, active, tree, nextId))
      ensures FaultIs(token, out, old(mode), old(Snapshot(open, active, tree, nextId)), mode, Snapshot(open, active, tree, nextId))
      ensures token.Comment? ==> out == Done(false) && mode == old(mode) && open == old(open) && active == old(active)
      ensures token.Comment? ==> open != [] && Top(open).id in old(tree) && tree == Grown(old(tree), Top(open).id, old(nextId), CommentNode(token.text))
      ensures token.StartTag? && IsHeadContent(token.tag.name) ==>
                old(headElement).Some? && Snapshot(open, active, tree, nextId) == LateHeadStep(old(Snapshot(open, active, tree, nextId)), old(headElement).value, token.tag)
      ensures out.Reprocess? ==> mode.InBody? && Snapshot(open, active, tree, nextId) == Opened(old(Snapshot(open, active, tree, nextId)), Tag(Body, map[]))
      decreases Need(mode, token, open), Turns(mode, token), |open|, 7
    {
      hide *;
      ghost var s0 := Snapshot(open, active, tree, nextId);
      BeforeBodyModes();
      RunningParts(mode, originalMode, open, active, headElement, tree, rank, nextId);
      AfterHeadFacts(token, open);
      AfterHeadSteps(token, s0);
      AfterHeadSteps(StartTag(Tag(Body, map[])), s0);
      if token.Character? && IsWhitespace(token.data) {
        CharacterHere(token.data);
        out := Done(false);
      } else if token.Comment? {
        CommentHere(token.text);
        out := Done(false);
      } else if token.Doctype? || (token.StartTag? && token.tag.name.Head?) {
        out := Done(true);
      } else if token.StartTag? && token.tag.name.Html? {
        out := Done(false);
      } else if token.StartTag? && token.tag.name.Body? {
        OpenBody(token.tag);
        out := Done(false);
      } else if token.StartTag? && token.tag.name.Frameset? {
        OpenFrameset(token.tag);
        out := Done(false);
      } else if token.StartTag? && IsHeadContent(token.tag.name) {
        LateHeadContent(token.tag);
        out := Done(false);
      } else if token.EndTag? && !(token.tag.name.Body? || token.tag.name.Html? || token.tag.name.Br?) {
        out := Done(true);
      } else {
        AfterHeadStack(originalMode, open, active, headElement, tree, rank, nextId);
        var simulated := Dispatch(StartTag(Tag(Body, map[])));
        HandledRuns(StartTag(Tag(Body, map[])), simulated, AfterHead, s0.open, mode, originalMode, open, active, headElement, tree, rank, nextId);
        RegionWasDone(StartTag(Tag(Body, map[])), simulated, AfterHead, s0, mode, Snapshot(open, active, tree, nextId));
        framesetOk := true;
        NextMode(token, AfterHead, s0.open, mode, originalMode, open, active, headElement, tree, rank, nextId);
        FaultsInBody(token, s0, Snapshot(open, active, tree, nextId));
        Uncharted(token, Reprocess(token), AfterHead, s0, mode, Snapshot(open, active, tree, nextId));
        return Reprocess(token);
      }
      RegionDone(token, out.ignored, AfterHead, s0, mode, Snapshot(open, active, tree, nextId));
      FaultsBeforeBody(token, AfterHead, s0, mode, Snapshot(open, active, tree, nextId));
      DoneWith(token, out.ignored, AfterHead, s0.open, mode, originalMode, open, active, headElement, tree, rank, nextId);
    }

    static lemma AfterHeadFacts(token: Token, open: Stack)
      ensures Steps(InBody, token) < Steps(AfterHead, token) && TakesText(AfterHead) && Follows(AfterHead, token, InBody)
      ensures !(token.StartTag? && token.tag.name.Body?) ==> Need(AfterHead, token, open) == 2
      ensures Need(AfterHead, StartTag(Tag(Body, map[])), open) == 0
    {
      hide InScope;
    }

    static lemma AfterHeadSteps(token: Token, s: Snapshot)
      ensures HasRegionStep(AfterHead, token, s.open) <==> token.StartTag? && (token.tag.name.Body? || token.tag.name.Frameset?)
      ensures token.StartTag? && (token.tag.name.Body? || token.tag.name.Frameset?) ==>
                && RegionStep(AfterHead, token, s) == Opened(s, token.tag)
                && RegionMode(AfterHead, token, s) == if token.tag.name.Body? then InBody else InFrameset
      ensures token.StartTag? && IsHeadContent(token.tag.name) ==>
                && !token.tag.name.Head? && !token.tag.name.Html? && !token.tag.name.Body? && !token.tag.name.Frameset?
                && !token.tag.name.Math? && !token.tag.name.Svg?
    {
      hide Opened;
      hide InScope;
    }

    static lemma AfterHeadStack(original: Mode, open: Stack, active: Entries, head: Option<Element>, t: Tree, rank: map<NodeId, real>, next: NodeId)
      requires Running(AfterHead, original, open, active, head, t, rank, next)
      ensures |open| == 1 && open[0].name.Html? && active == []
    {
      HtmlAlone(open);
      hide Sound;
      hide Reaches;
    }

    // The body is empty when the token that opened it is processed again.
    static lemma FaultsInBody(token: Token, s0: Snapshot, s: Snapshot)
      requires |s0.open| == 1 && s0.open[0].name.Html? && s0.active == [] && s == Opened(s0, Tag(Body, map[]))
      ensures FaultIs(token, Reprocess(token), AfterHead, s0, InBody, s)
    {
      FaultInNewBody(token, s.open, s.tree, s.next, s0);
      hide FaultOf;
    }

    method OpenBody(tag: Tag)
      requires Running(mode, originalMode, open, active, headElement, tree, rank, nextId) && mode.AfterHead? && tag.name.Body?
      modifies `mode, `originalMode, `open, `tree, `rank, `nextId, `framesetOk
      ensures Running(mode, originalMode, open, active, headElement, tree, rank, nextId) && mode.InBody? && !framesetOk
      ensures Snapshot(open, active, tree, nextId) == Opened(old(Snapshot(open, active, tree, nextId)), tag)
    {
      hide *;
      AfterHeadOpens(originalMode, open, active, headElement, tree, rank, nextId, tag);
      var _ := InsertAnElement(tag);
      framesetOk := false;
      SwitchMode(InBody);
      RegionRuns(mode, originalMode, open, active, headElement, tree, rank, nextId);
    }

    method OpenFrameset(tag: Tag)
      requires Running(mode, originalMode, open, active, headElement, tree, rank, nextId) && mode.AfterHead? && tag.name.Frameset?
      modifies `mode, `originalMode, `open, `tree, `rank, `nextId
      ensures Running(mode, originalMode, open, active, headElement, tree, rank, nextId) && mode.InFrameset?
      ensures Snapshot(open, active, tree, nextId) == Opened(old(Snapshot(open, active, tree, nextId)), tag)
    {
      hide *;
      AfterHeadOpens(originalMode, open, active, headElement, tree, rank, nextId, tag);
      var _ := InsertAnElement(tag);
      SwitchMode(InFrameset);
      FramesetRuns(mode, originalMode, open, active, headElement, tree, rank, nextId);
    }

    static lemma AfterHeadOpens(original: Mode, open: Stack, active: Entries, head: Option<Element>, t: Tree, rank: map<NodeId, real>, next: NodeId, tag: Tag)
      requires Running(AfterHead, original, open, active, head, t, rank, next) && (tag.name.Body? || tag.name.Frameset?)
      ensures open != [] && Grounded(open, active, t, rank, next) && Balanced(open, active) && !TakesMarker(tag.name) && active == []
      ensures tag.name.Body? ==> ZoneOf(open + [NewElement(next, tag)]) == Home(InBody)
      ensures tag.name.Frameset? ==> ZoneOf(open + [NewElement(next, tag)]) == FramesetZone
      ensures !IsQuiet(InBody)
    {
      SoundParts(open, active, t, rank, next);
      HtmlAlone(open);
      hide Grounded;
      hide Balanced;
      hide Reaches;
      assert Below(open + [NewElement(next, tag)]) == open;
    }

    static lemma FramesetRuns(mode: Mode, original: Mode, open: Stack, active: Entries, head: Option<Element>, t: Tree, rank: map<NodeId, real>, next: NodeId)
      requires Grounded(open, active, t, rank, next) && Balanced(open, active) && active == []
      requires (mode.InFrameset? && ZoneOf(open) == FramesetZone) || ((mode.AfterFrameset? || mode.AfterAfterFrameset?) && ZoneOf(open) == HtmlZone)
      ensures Running(mode, original, open, active, head, t, rank, next)
    {
      hide Grounded;
      hide Balanced;
      hide ZoneOf;
    }

    // Head content after the head goes into the head, which is pushed for the purpose and taken off again.
    method LateHeadContent(tag: Tag)
      requires Running(mode, originalMode, open, active, headElement, tree, rank, nextId) && mode.AfterHead? && IsHeadContent(tag.name)
      modifies `mode, `originalMode, `open, `tree, `rank, `nextId
      ensures Running(mode, originalMode, open, active, headElement, tree, rank, nextId)
      ensures TextOrSame(AfterHead, old(originalMode), old(open), NewElement(old(nextId), tag), mode, originalMode, open)
      ensures headElement.Some? && Snapshot(open, active, tree, nextId) == LateHeadStep(old(Snapshot(open, active, tree, nextId)), headElement.value, tag)
    {
      hide *;
      ghost var open0, tree0, rank0, next0, original0 := open, tree, rank, nextId, originalMode;
      LateHeadStepIs(Snapshot(open, active, tree, nextId), headElement, tag);
      HeadPushed(originalMode, open, active, headElement, tree, rank, nextId);
      open := open + [headElement.value];
      HeadContent(tag);
      HeadTaken(original0, open0, NewElement(next0, tag), mode, originalMode, open, active, headElement, tree, rank, nextId);
      RemoveFromStack(headElement.value);
      TextRuns(AfterHead, original0, open0, NewElement(next0, tag), tree0, rank0, mode, originalMode, open, active, headElement, tree, rank, nextId);
    }

    static lemma LateHeadStepIs(s: Snapshot, head: Option<Element>, tag: Tag)
      ensures head.Some? ==>
                var r := HeadStep(Snapshot(s.open + [head.value], s.active, s.tree, s.next), tag);
                var k := IndexOf(r.open, head.value);
                LateHeadStep(s, head.value, tag) == Snapshot(if k < 0 then r.open else Removed(r.open, k), r.active, r.tree, r.next)
    {
      hide HeadStep;
    }

    static lemma HeadPushed(original: Mode, open: Stack, active: Entries, head: Option<Element>, t: Tree, rank: map<NodeId, real>, next: NodeId)
      requires Running(AfterHead, original, open, active, head, t, rank, next)
      ensures head.Some? && |open| == 1 && TakesText(AfterHead) && open + [head.value] != []
      ensures Sound(open + [head.value], active, t, rank, next) && HeadKept(head, open + [head.value], t, rank)
      ensures Settled(AfterHead, original, open, active, head, t, rank)
    {
      hide ZoneFrom;
      hide Balanced;
      hide Grounded;
      hide Reaches;
      HtmlAlone(open);
      HeadPushedSound(open, active, head, t, rank, next);
    }

    static lemma HeadPushedSound(open: Stack, active: Entries, head: Option<Element>, t: Tree, rank: map<NodeId, real>, next: NodeId)
      requires Sound(open, active, t, rank, next) && HeadKept(head, open, t, rank) && |open| == 1 && open[0].name.Html? && active == []
      ensures Sound(open + [head.value], active, t, rank, next)
    {
      hide Linked;
      hide Ranked;
      hide Reaches;
      var stack := open + [head.value];
      assert stack[0] == open[0] && stack[1] == head.value;
      NoTakers(stack);
    }

    static lemma {:induction false} HeadTaken(original0: Mode, open0: Stack, e: Element, mode: Mode, original: Mode, open: Stack, active: Entries, head: Option<Element>,
                           t: Tree, rank: map<NodeId, real>, next: NodeId)
      requires |open0| == 1 && head.Some? && Sound(open, active, t, rank, next) && HeadKept(head, open, t, rank)
      requires TextOrSame(AfterHead, original0, open0 + [head.value], e, mode, original, open)
      ensures IndexOf(open, head.value) == 1
      ensures TextOrSame(AfterHead, original0, open0, e, mode, original, Removed(open, 1))
      ensures Sound(Removed(open, 1), active, t, rank, next) && HeadKept(head, Removed(open, 1), t, rank)
    {
      SoundRemove(open, active, t, rank, next, 1);
      SoundIsDistinct(open, active, t, rank, next);
      hide Sound;
      hide Reaches;
      assert open[1] == head.value;
      assert Removed(open, 1) == if |open| == 2 then open0 else open0 + [e];
    }

    // ---------------------------------------------------------------------------------------------
    // After the body

    method StopHere() returns (out: Outcome)
      requires Running(mode, originalMode, open, active, headElement, tree, rank, nextId)
      modifies `open
      ensures out == Done(false) && open == []
      ensures forall mode0, open0 :: Handled(EndOfFile, out, mode0, open0, mode, originalMode, open, active, headElement, tree, rank, nextId)
    {
      hide *;
      RunningParts(mode, originalMode, open, active, headElement, tree, rank, nextId);
      StopParsing();
      out := Done(false);
      forall mode0, open0
        ensures Handled(EndOfFile, out, mode0, open0, mode, originalMode, open, active, headElement, tree, rank, nextId)
      {
        Stopped(mode0, open0, mode, originalMode, open, active, headElement, tree, rank, nextId);
      }
    }

    // Whitespace after the body, or after the outermost frameset, by the rules for a body.
    method LateWhitespace(data: char)
      requires Running(mode, originalMode, open, active, headElement, tree, rank, nextId)
      requires mode.AfterBody? || mode.AfterAfterBody? || mode.AfterAfterFrameset?
      requires IsWhitespace(data)
      modifies `open, `active, `tree, `rank, `nextId, `framesetOk
      ensures Running(mode, originalMode, open, active, headElement, tree, rank, nextId)
      ensures Snapshot(open, active, tree, nextId) == Typed(Reconstructed(old(Snapshot(open, active, tree, nextId))), data)
    {
      hide *;
      WhitespaceIsText(data);
      RunningParts(mode, originalMode, open, active, headElement, tree, rank, nextId);
      LateCharacters(mode, originalMode, open, active, headElement, tree, rank, nextId);
      ghost var open0 := open;
      var _ := BodyCharacter(data);
      LateRuns(mode, originalMode, open0, open, active, headElement, tree, rank, nextId);
    }

    static lemma WhitespaceIsText(data: char)
      requires IsWhitespace(data)
      ensures data != 0 as char
    {
    }

    static lemma LateCharacters(mode: Mode, original: Mode, open: Stack, active: Entries, head: Option<Element>, t: Tree, rank: map<NodeId, real>, next: NodeId)
      requires Running(mode, original, open, active, head, t, rank, next)
      requires mode.AfterBody? || mode.AfterAfterBody? || mode.AfterAfterFrameset?
      ensures IsFlow(ZoneOf(open)) || active == []
      ensures mode.AfterAfterFrameset? ==> active == []
    {
      hide Sound;
      hide ZoneOf;
    }

    static lemma LateRuns(mode: Mode, original: Mode, open0: Stack, open: Stack, active: Entries, head: Option<Element>, t: Tree, rank: map<NodeId, real>, next: NodeId)
      requires Sound(open, active, t, rank, next) && ZoneOf(open) == ZoneOf(open0)
      requires mode.AfterBody? || mode.AfterAfterBody? || mode.AfterAfterFrameset?
      requires ZoneOf(open0) == Home(mode) && (mode.AfterAfterFrameset? ==> active == [])
      ensures Running(mode, original, open, active, head, t, rank, next)
    {
      hide Sound;
      hide ZoneOf;
    }

    method AfterBodyRules(token: Token) returns (out: Outcome)
      requires Running(mode, originalMode, open, active, headElement, tree, rank, nextId) && (mode.AfterBody? || mode.AfterAfterBody?)
      modifies this
      ensures Handled(token, out, old(mode), old(open), mode, originalMode, open, active, headElement, tree, rank, nextId)
      ensures FaultIs(token, out, old(mode), old(Snapshot(open, active, tree, nextId)), mode, Snapshot(open, active, tree, nextId))
      ensures token.Comment? ==> out == Done(false) && mode == old(mode) && open == old(open) && active == old(active)
      ensures token.Comment? && old(mode).AfterBody? ==> open != [] && Top(open).id in old(tree) && tree == Grown(old(tree), Top(open).id, old(nextId), CommentNode(token.text))
      ensures token.Comment? && old(mode).AfterAfterBody? ==> DOCUMENT in old(tree) && tree == Grown(old(tree), DOCUMENT, old(nextId), CommentNode(token.text))
      ensures token.Character? && IsWhitespace(token.data) ==>
                mode == old(mode) && Snapshot(open, active, tree, nextId) == Typed(Reconstructed(old(Snapshot(open, active, tree, nextId))), token.data)
      ensures token.EndTag? && old(mode).AfterBody? ==>
                && mode == (if token.tag.name.Html? then AfterAfterBody else AfterBody)
                && Snapshot(open, active, tree, nextId) == old(Snapshot(open, active, tree, nextId))
      ensures out.Reprocess? ==> mode.InBody? && Snapshot(open, active, tree, nextId) == old(Snapshot(open, active, tree, nextId))
    {
      hide *;
      ghost var mode0, s0 := mode, Snapshot(open, active, tree, nextId);
      RunningParts(mode, originalMode, open, active, headElement, tree, rank, nextId);
      AfterBodyFacts(mode, token, originalMode, open, active, headElement, tree, rank, nextId);
      if token.EndOfFile? {
        out := StopHere();
        FaultsAfterBody(token, mode0, s0, mode, Snapshot(open, active, tree, nextId));
        return;
      }
      if token.Character? && IsWhitespace(token.data) {
        LateWhitespace(token.data);
        out := Done(false);
      } else if token.Comment? {
        if mode.AfterBody? {
          CommentHere(token.text);
        } else {
          DocumentComment(token.text);
        }
        out := Done(false);
      } else if token.Doctype? {
        out := Done(mode.AfterBody?);
      } else if token.StartTag? && token.tag.name.Html? {
        out := Done(false);
      } else if token.EndTag? && mode.AfterBody? {
        if token.tag.name.Html? {
          SwitchMode(AfterAfterBody);
        }
        out := Done(false);
      } else {
        SwitchMode(InBody);
        NextMode(token, mode0, s0.open, mode, originalMode, open, active, headElement, tree, rank, nextId);
        FaultsAfterBody(token, mode0, s0, mode, s0);
        return Reprocess(token);
      }
      FaultsAfterBody(token, mode0, s0, mode, Snapshot(open, active, tree, nextId));
      DoneWith(token, out.ignored, mode0, s0.open, mode, originalMode, open, active, headElement, tree, rank, nextId);
    }

    static lemma AfterBodyFacts(mode: Mode, token: Token, original: Mode, open: Stack, active: Entries, head: Option<Element>, t: Tree,
                                rank: map<NodeId, real>, next: NodeId)
      requires Running(mode, original, open, active, head, t, rank, next) && (mode.AfterBody? || mode.AfterAfterBody?)
      ensures Running(InBody, original, open, active, head, t, rank, next) && Running(AfterAfterBody, original, open, active, head, t, rank, next)
      ensures Need(mode, token, open) == 2 && Follows(mode, token, InBody)
      ensures !(mode.AfterBody? && token.EndTag?) ==> Steps(InBody, token) < Steps(mode, token)
    {
      hide HeadKept;
      hide IsPlain;
      hide IsSpecial;
      hide Sound;
      hide ZoneOf;
      hide InScope;
    }

    static lemma FaultsAfterBody(token: Token, mode0: Mode, s0: Snapshot, mode: Mode, s: Snapshot)
      requires mode0.AfterBody? || mode0.AfterAfterBody?
      ensures !(token.EndTag? && mode0.AfterBody?) && s == s0 && mode.InBody? ==> FaultIs(token, Reprocess(token), mode0, s0, mode, s)
      ensures (token.StartTag? ==> token.tag.name.Html?) && (token.EndTag? ==> mode0.AfterBody?) ==>
                forall ignored :: FaultIs(token, Done(ignored), mode0, s0, mode, s)
    {
      hide AgencyFails;
      hide InScope;
      hide InDefinition;
      hide Reconstructed;
    }

    // ---------------------------------------------------------------------------------------------
    // Framesets

    method FramesetRules(token: Token) returns (out: Outcome)
      requires Running(mode, originalMode, open, active, headElement, tree, rank, nextId)
      requires mode.InFrameset? || mode.AfterFrameset? || mode.AfterAfterFrameset?
      modifies this
      ensures Handled(token, out, old(mode), old(open), mode, originalMode, open, active, headElement, tree, rank, nextId)
      ensures RegionEffect(token, out, old(mode), old(Snapshot(open, active, tree, nextId)), mode, Snapshot(open, active, tree, nextId))
      ensures token.Comment? ==> out == Done(false) && mode == old(mode) && open == old(open) && active == old(active)
      ensures token.Comment? && !old(mode).AfterAfterFrameset? ==> open != [] && Top(open).id in old(tree) && tree == Grown(old(tree), Top(open).id, old(nextId), CommentNode(token.text))
      ensures token.Comment? && old(mode).AfterAfterFrameset? ==> DOCUMENT in old(tree) && tree == Grown(old(tree), DOCUMENT, old(nextId), CommentNode(token.text))
      ensures token.EndTag? && token.tag.name.Html? && old(mode).AfterFrameset? ==>
                mode.AfterAfterFrameset? && Snapshot(open, active, tree, nextId) == old(Snapshot(open, active, tree, nextId))
      ensures token.StartTag? && token.tag.name.Noframes? ==>
                mode.Text? && Snapshot(open, active, tree, nextId) == Opened(old(Snapshot(open, active, tree, nextId)), token.tag)
    {
      hide *;
      ghost var mode0, s0 := mode, Snapshot(open, active, tree, nextId);
      RunningParts(mode, originalMode, open, active, headElement, tree, rank, nextId);
      FramesetFacts(mode, originalMode, open, active, headElement, tree, rank, nextId);
      FramesetSteps(mode, token, s0);
      ClosedIs(s0);
      out := Done(false);
      if token.EndOfFile? {
        out := StopHere();
        Uncharted(token, out, mode0, s0, mode, Snapshot(open, active, tree, nextId));
        return;
      }
      if token.Character? && IsWhitespace(token.data) {
        if mode.AfterAfterFrameset? {
          LateWhitespace(token.data);
        } else {
          CharacterHere(token.data);
        }
      } else if token.Comment? {
        if mode.AfterAfterFrameset? {
          DocumentComment(token.text);
        } else {
          CommentHere(token.text);
        }
      } else if token.Doctype? {
        out := Done(!mode.AfterAfterFrameset?);
      } else if token.StartTag? && token.tag.name.Html? {
      } else if token.StartTag? && token.tag.name.Noframes? {
        NoframesIsHeadContent(token.tag, s0);
        HeadContentHere(token.tag);
      } else if mode.InFrameset? && token.StartTag? && (token.tag.name.Frameset? || token.tag.name.Frame?) {
        OpenFrame(token.tag);
      } else if token.EndTag? && !mode.AfterAfterFrameset? {
        if mode.AfterFrameset? && token.tag.name.Html? {
          SwitchMode(AfterAfterFrameset);
        } else if mode.InFrameset? && token.tag.name.Frameset? {
          CloseFrameset();
        }
      } else {
        out := Done(true);
      }
      RegionDone(token, out.ignored, mode0, s0, mode, Snapshot(open, active, tree, nextId));
      DoneWith(token, out.ignored, mode0, s0.open, mode, originalMode, open, active, headElement, tree, rank, nextId);
    }

    static lemma FramesetSteps(mode: Mode, token: Token, s: Snapshot)
      requires mode.InFrameset? || mode.AfterFrameset? || mode.AfterAfterFrameset?
      ensures HasRegionStep(mode, token, s.open) <==>
                mode.InFrameset? && ((token.StartTag? && (token.tag.name.Frameset? || token.tag.name.Frame?)) || (token.EndTag? && token.tag.name.Frameset?))
      ensures mode.InFrameset? && token.StartTag? && (token.tag.name.Frameset? || token.tag.name.Frame?) ==>
                && RegionMode(mode, token, s) == InFrameset
                && RegionStep(mode, token, s) == if token.tag.name.Frame? then Voided(s, token.tag) else Opened(s, token.tag)
      ensures mode.InFrameset? && token.EndTag? && token.tag.name.Frameset? && |s.open| > 1 ==>
                && RegionStep(mode, token, s) == Closed(s)
                && RegionMode(mode, token, s) == if s.open[|s.open| - 2].name.Frameset? then InFrameset else AfterFrameset
    {
      hide Voided;
      hide Opened;
      hide InScope;
    }

    static lemma NoframesIsHeadContent(tag: Tag, s: Snapshot)
      requires tag.name.Noframes?
      ensures IsHeadContent(tag.name) && !IsVoidInHead(tag.name) && HeadStep(s, tag) == Opened(s, tag)
    {
      hide Opened;
    }

    static lemma FramesetFacts(mode: Mode, original: Mode, open: Stack, active: Entries, head: Option<Element>, t: Tree, rank: map<NodeId, real>, next: NodeId)
      requires Running(mode, original, open, active, head, t, rank, next)
      requires mode.InFrameset? || mode.AfterFrameset? || mode.AfterAfterFrameset?
      ensures TakesText(mode) && active == []
      ensures mode.AfterFrameset? ==> Running(AfterAfterFrameset, original, open, active, head, t, rank, next)
    {
      hide Sound;
      hide ZoneOf;
    }

    method OpenFrame(tag: Tag)
      requires Running(mode, originalMode, open, active, headElement, tree, rank, nextId) && mode.InFrameset? && (tag.name.Frameset? || tag.name.Frame?)
      modifies `open, `tree, `rank, `nextId
      ensures Running(mode, originalMode, open, active, headElement, tree, rank, nextId)
      ensures Snapshot(open, active, tree, nextId) ==
              if tag.name.Frame? then Voided(old(Snapshot(open, active, tree, nextId)), tag) else Opened(old(Snapshot(open, active, tree, nextId)), tag)
    {
      hide *;
      RunningParts(mode, originalMode, open, active, headElement, tree, rank, nextId);
      FramesetFacts(mode, originalMode, open, active, headElement, tree, rank, nextId);
      FramesOpen(originalMode, open, active, headElement, tree, rank, nextId, tag);
      if tag.name.Frame? {
        var _ := VoidHere(tag);
      } else {
        var _ := InsertAnElement(tag);
        FramesetRuns(mode, originalMode, open, active, headElement, tree, rank, nextId);
      }
    }

    static lemma FramesOpen(original: Mode, open: Stack, active: Entries, head: Option<Element>, t: Tree, rank: map<NodeId, real>, next: NodeId, tag: Tag)
      requires Running(InFrameset, original, open, active, head, t, rank, next) && (tag.name.Frameset? || tag.name.Frame?)
      ensures !TakesMarker(tag.name) && Grounded(open, active, t, rank, next) && Balanced(open, active)
      ensures tag.name.Frameset? ==> ZoneOf(open + [NewElement(next, tag)]) == FramesetZone
    {
      SoundParts(open, active, t, rank, next);
      hide Grounded;
      hide Balanced;
      assert Below(open + [NewElement(next, tag)]) == open;
    }

    // The frameset is never the root; with the outermost one the framesets are over.
    method CloseFrameset()
      requires Running(mode, originalMode, open, active, headElement, tree, rank, nextId) && mode.InFrameset?
      modifies `mode, `originalMode, `open
      ensures Running(mode, originalMode, open, active, headElement, tree, rank, nextId)
      ensures |old(open)| > 1 && open == old(open)[..|old(open)| - 1]
      ensures mode == if open[|open| - 1].name.Frameset? then InFrameset else AfterFrameset
    {
      hide *;
      FramesetCloses(originalMode, open, active, headElement, tree, rank, nextId);
      PopCurrentNode();
      if !open[|open| - 1].name.Frameset? {
        SwitchMode(AfterFrameset);
      }
    }

    static lemma FramesetCloses(original: Mode, open: Stack, active: Entries, head: Option<Element>, t: Tree, rank: map<NodeId, real>, next: NodeId)
      requires Running(InFrameset, original, open, active, head, t, rank, next)
      ensures |open| > 1 && open[|open| - 1] != open[0]
      ensures Running(if open[|open| - 2].name.Frameset? then InFrameset else AfterFrameset, original, open[..|open| - 1], active, head, t, rank, next)
    {
      hide Sound;
      hide ZoneFrom;
      FramesetBelow(open);
      SoundCut(open, active, t, rank, next, |open| - 1);
      SoundIsDistinct(open, active, t, rank, next);
    }

    static lemma FramesetBelow(open: Stack)
      requires ZoneOf(open) == FramesetZone
      ensures |open| > 1
      ensures open[|open| - 2].name.Frameset? ==> ZoneOf(open[..|open| - 1]) == FramesetZone
      ensures !open[|open| - 2].name.Frameset? ==> ZoneOf(open[..|open| - 1]) == HtmlZone
    {
      HtmlAlone(open);
      HtmlAlone(Below(open));
    }

    // ---------------------------------------------------------------------------------------------
    // Opening and closing the regions of a table

    // Opens an element that takes no marker and switches to the mode for it.
    method OpenRegion(tag: Tag, m: Mode)
      requires Running(mode, originalMode, open, active, headElement, tree, rank, nextId) && open != []
      requires !m.Text? && !m.InTableText? && !IsQuiet(m) && !TakesMarker(tag.name) && ZoneOf(open + [NewElement(nextId, tag)]) == Home(m)
      modifies `mode, `originalMode, `open, `tree, `rank, `nextId
      ensures mode == m && Running(mode, originalMode, open, active, headElement, tree, rank, nextId)
      ensures Snapshot(open, active, tree, nextId) == Opened(old(Snapshot(open, active, tree, nextId)), tag)
    {
      hide *;
      RunningParts(mode, originalMode, open, active, headElement, tree, rank, nextId);
      SoundParts(open, active, tree, rank, nextId);
      var _ := InsertAnElement(tag);
      SwitchMode(m);
      RegionRuns(mode, originalMode, open, active, headElement, tree, rank, nextId);
    }

    // Pops the current node and switches to the mode for what is below it.
    method CloseRegion(m: Mode)
      requires Running(mode, originalMode, open, active, headElement, tree, rank, nextId) && open != []
      requires !m.Text? && !m.InTableText? && !IsQuiet(m) && ZoneOf(open[..|open| - 1]) == Home(m)
      modifies `mode, `originalMode, `open
      ensures mode == m && Running(mode, originalMode, open, active, headElement, tree, rank, nextId)
      ensures open == old(open)[..|old(open)| - 1]
    {
      hide *;
      RunningParts(mode, originalMode, open, active, headElement, tree, rank, nextId);
      CutSound(open, active, tree, rank, nextId, |open| - 1);
      PopCurrentNode();
      SwitchMode(m);
      RegionRuns(mode, originalMode, open, active, headElement, tree, rank, nextId);
    }

    static lemma CutSound(open: Stack, active: Entries, t: Tree, rank: map<NodeId, real>, next: NodeId, k: nat)
      requires Sound(open, active, t, rank, next) && k <= |open|
      ensures Sound(open[..k], active, t, rank, next)
      ensures Grounded(open[..k], active, t, rank, next) && Balanced(open[..k], active)
    {
      SoundCut(open, active, t, rank, next, k);
      hide Grounded;
      hide Balanced;
    }

    method OpenCell(tag: Tag)
      requires Running(mode, originalMode, open, active, headElement, tree, rank, nextId) && mode.InRow? && IsCell(tag.name)
      modifies `mode, `originalMode, `open, `active, `tree, `rank, `nextId
      ensures mode.InCell? && Running(mode, originalMode, open, active, headElement, tree, rank, nextId)
      ensures Snapshot(open, active, tree, nextId) == Marked(old(Snapshot(open, active, tree, nextId)), tag)
    {
      hide *;
      MarkedIs(Snapshot(open, active, tree, nextId), tag);
      RunningParts(mode, originalMode, open, active, headElement, tree, rank, nextId);
      SoundParts(open, active, tree, rank, nextId);
      CellOpens(open, nextId, tag);
      MarkedTogether(open, active, tree, rank, nextId, tag);
      var _ := InsertAnElement(tag);
      SwitchMode(InCell);
      MarkerEnters(open, active, tree, rank, nextId);
      InsertMarker();
      RegionRuns(mode, originalMode, open, active, headElement, tree, rank, nextId);
    }

    static lemma CellOpens(open: Stack, next: NodeId, tag: Tag)
      requires ZoneOf(open) == Home(InRow) && IsCell(tag.name)
      ensures ZoneOf(open + [NewElement(next, tag)]) == Home(InCell) && !IsQuiet(InCell)
    {
      ZonePush(open, NewElement(next, tag));
    }

    method OpenCaption(tag: Tag)
      requires Running(mode, originalMode, open, active, headElement, tree, rank, nextId) && mode.InTable? && tag.name.Caption?
      modifies `mode, `originalMode, `open, `active, `tree, `rank, `nextId
      ensures mode.InCaption? && Running(mode, originalMode, open, active, headElement, tree, rank, nextId)
      ensures Snapshot(open, active, tree, nextId) == MarkedFirst(old(Snapshot(open, active, tree, nextId)), tag)
    {
      hide *;
      MarkedFirstIs(Snapshot(open, active, tree, nextId), tag);
      RunningParts(mode, originalMode, open, active, headElement, tree, rank, nextId);
      SoundParts(open, active, tree, rank, nextId);
      CaptionOpens(open, nextId + 1, tag);
      MarkedTogether(open, active, tree, rank, nextId, tag);
      MarkerEnters(open, active, tree, rank, nextId);
      InsertMarker();
      var _ := InsertAnElement(tag);
      SwitchMode(InCaption);
      RegionRuns(mode, originalMode, open, active, headElement, tree, rank, nextId);
    }

    static lemma MarkedFirstIs(s: Snapshot, tag: Tag)
      ensures MarkedFirst(s, tag) == Opened(Snapshot(s.open, s.active + [Marker(s.next)], s.tree, s.next + 1), tag)
    {
    }

    static lemma CaptionOpens(open: Stack, next: NodeId, tag: Tag)
      requires ZoneOf(open) == Home(InTable) && tag.name.Caption?
      ensures ZoneOf(open + [NewElement(next, tag)]) == Home(InCaption) && !IsQuiet(InCaption)
    {
      ZonePush(open, NewElement(next, tag));
    }

    // Closes the cell or caption, with everything in it, and forgets the formatting begun in it.
    method CloseMarkedRegion(name: Name, m: Mode)
      requires Running(mode, originalMode, open, active, headElement, tree, rank, nextId)
      requires (mode.InCell? && m.InRow? && IsCell(name) && InScope(open, {name}, TableScope)) || (mode.InCaption? && m.InTable? && name.Caption?)
      modifies `mode, `originalMode, `open, `active
      ensures mode == m && Running(mode, originalMode, open, active, headElement, tree, rank, nextId)
      ensures Snapshot(open, active, tree, nextId) == ClosedRegion(old(Snapshot(open, active, tree, nextId)))
    {
      hide *;
      ClosedRegionIs(Snapshot(open, active, tree, nextId));
      MarkedRegionCloses(mode, originalMode, open, active, headElement, tree, rank, nextId, name, m);
      CloseElement({name}, {});
      ClearActiveToLastMarker();
      SwitchMode(m);
      RegionRuns(mode, originalMode, open, active, headElement, tree, rank, nextId);
    }

    static lemma ClosedRegionIs(s: Snapshot)
      ensures Anchor(s.open) >= 0 && LastMarker(s.active) >= 0 ==>
                ClosedRegion(s) == Snapshot(s.open[..Anchor(s.open)], s.active[..LastMarker(s.active)], s.tree, s.next)
    {
      hide Anchor;
      hide LastMarker;
    }

    static lemma MarkedRegionCloses(mode: Mode, original: Mode, open: Stack, active: Entries, head: Option<Element>, t: Tree, rank: map<NodeId,
                                    real>, next: NodeId, name: Name, m: Mode)
      requires Running(mode, original, open, active, head, t, rank, next)
      requires (mode.InCell? && m.InRow? && IsCell(name) && InScope(open, {name}, TableScope)) || (mode.InCaption? && m.InTable? && name.Caption?)
      ensures 0 < Anchor(open) == Topmost(open, {name}) && !HasImpliedEnd(name) && 0 <= LastMarker(active)
      ensures Grounded(open[..Anchor(open)], active[..LastMarker(active)], t, rank, next) && Balanced(open[..Anchor(open)], active[..LastMarker(active)])
      ensures !m.Text? && !m.InTableText? && ZoneOf(open[..Anchor(open)]) == Home(m) && !IsQuiet(m)
    {
      hide Grounded;
      hide Balanced;
      hide InScope;
      hide HeadKept;
      hide Sound;
      hide ZoneFrom;
      hide Anchor;
      hide Topmost;
      hide LastMarker;
      BelowAnchor(open);
      if mode.InCell? {
        CellInScope(open, name);
      } else {
        CaptionInScope(open);
      }
      assert TakesMarker(open[Anchor(open)].name);
      SoundClear(open, active, t, rank, next, Anchor(open));
      SoundParts(open[..Anchor(open)], active[..LastMarker(active)], t, rank, next);
    }

    // The end of a table: back to the body, cell or caption it is in.
    method CloseTable()
      requires Running(mode, originalMode, open, active, headElement, tree, rank, nextId) && mode.InTable?
      modifies `mode, `open
      ensures IsBodyMode(mode) && Running(mode, originalMode, open, active, headElement, tree, rank, nextId)
      ensures Snapshot(open, active, tree, nextId) == Closed(old(Snapshot(open, active, tree, nextId))) && mode == FlowMode(open)
    {
      hide *;
      ClosedIs(Snapshot(open, active, tree, nextId));
      TableCloses(originalMode, open, active, headElement, tree, rank, nextId);
      PopThrough({Table});
      ResetInsertionMode();
      FlowIf(mode, open, active, tree, rank, nextId);
      FlowRuns(mode, originalMode, open, active, headElement, tree, rank, nextId);
    }

    static lemma TableCloses(original: Mode, open: Stack, active: Entries, head: Option<Element>, t: Tree, rank: map<NodeId, real>, next: NodeId)
      requires Running(InTable, original, open, active, head, t, rank, next)
      ensures open != [] && Topmost(open, {Table}) == |open| - 1 && InScope(open, {Table}, TableScope)
      ensures Grounded(open[..|open| - 1], active, t, rank, next) && Balanced(open[..|open| - 1], active)
      ensures IsFlow(ZoneOf(open[..|open| - 1]))
    {
      hide Sound;
      hide ZoneFrom;
      TableShape(open);
      TopInScope(open, Table);
      RunningParts(InTable, original, open, active, head, t, rank, next);
      CutSound(open, active, t, rank, next, |open| - 1);
    }

    // ---------------------------------------------------------------------------------------------
    // In a table

    // "In table body" and "in row" deal with these themselves.
    static predicate ReachesTable(mode: Mode, token: Token) {
      mode.InTable? || match token
                       case StartTag(tag) => !IsTablePart(tag.name)
                       case EndTag(tag) => !(tag.name.Table? || IsTableBody(tag.name) || tag.name.Tr?)
                       case _ => true
    }

    method TableRules(token: Token) returns (out: Outcome)
      requires Running(mode, originalMode, open, active, headElement, tree, rank, nextId) && IsRowMode(mode) && ReachesTable(mode, token)
      modifies this
      ensures Handled(token, out, old(mode), old(open), mode, originalMode, open, active, headElement, tree, rank, nextId)
      ensures RegionEffect(token, out, old(mode), old(Snapshot(open, active, tree, nextId)), mode, Snapshot(open, active, tree, nextId))
      ensures token.Comment? ==> out == Done(false) && mode == old(mode) && open == old(open) && active == old(active)
      ensures token.Comment? ==> open != [] && Top(open).id in old(tree) && tree == Grown(old(tree), Top(open).id, old(nextId), CommentNode(token.text))
      decreases Need(mode, token, open), Turns(mode, token), |open|, 6
    {
      hide *;
      ghost var mode0, s0 := mode, Snapshot(open, active, tree, nextId);
      RowModes(mode);
      if !token.StartTag? && !token.EndTag? {
        OtherTokens(mode, token, s0);
      }
      RunningParts(mode, originalMode, open, active, headElement, tree, rank, nextId);
      match token {
        case StartTag(tag) =>
          out := TableStartTag(tag);
          return;
        case EndTag(tag) =>
          out := TableEndTag(tag);
          return;
        case EndOfFile =>
          out := StopHere();
        case Character(data) =>
          out := TableCharacter(data);
        case Comment(text) =>
          CommentHere(text);
          out := Done(false);
          DoneWith(token, false, mode0, s0.open, mode, originalMode, open, active, headElement, tree, rank, nextId);
        case Doctype(_) =>
          out := Done(true);
          DoneWith(token, true, mode0, s0.open, mode, originalMode, open, active, headElement, tree, rank, nextId);
      }
      Uncharted(token, out, mode0, s0, mode, Snapshot(open, active, tree, nextId));
    }

    static lemma OtherTokens(mode: Mode, token: Token, s: Snapshot)
      requires !token.StartTag? && !token.EndTag?
      ensures !HasRegionStep(mode, token, s.open) && !MayFailIn(mode, token)
    {
    }

    static lemma RowModes(mode: Mode)
      requires IsRowMode(mode)
      ensures !mode.Initial? && !mode.BeforeHtml? && !mode.Text? && !mode.InTableText? && TakesText(mode)
    {
    }

    // Characters are collected, whatever part of the table the current node is.
    method TableCharacter(data: char) returns (out: Outcome)
      requires Running(mode, originalMode, open, active, headElement, tree, rank, nextId) && IsRowMode(mode)
      modifies `mode, `originalMode, `pendingTableCharacters
      ensures Handled(Character(data), out, old(mode), open, mode, originalMode, open, active, headElement, tree, rank, nextId)
      ensures out == Reprocess(Character(data)) && mode.InTableText? && originalMode == old(mode) && pendingTableCharacters == []
    {
      hide *;
      ghost var mode0 := mode;
      RunningParts(mode, originalMode, open, active, headElement, tree, rank, nextId);
      TableTextBegins(mode, originalMode, open, active, headElement, tree, rank, nextId, data);
      var name := open[|open| - 1].name;
      out := Done(false);
      if name.Table? || IsTableBody(name) || name.Tr? {
        pendingTableCharacters := [];
        originalMode := mode;
        SwitchMode(InTableText);
        NextMode(Character(data), mode0, open, mode, originalMode, open, active, headElement, tree, rank, nextId);
        out := Reprocess(Character(data));
      }
    }

    static lemma TableTextBegins(mode: Mode, original: Mode, open: Stack, active: Entries, head: Option<Element>, t: Tree, rank: map<NodeId, real>,
                                 next: NodeId, data: char)
      requires Running(mode, original, open, active, head, t, rank, next) && IsRowMode(mode)
      ensures open != []
      ensures open[|open| - 1].name.Table? || IsTableBody(open[|open| - 1].name) || open[|open| - 1].name.Tr?
      ensures Running(InTableText, mode, open, active, head, t, rank, next)
      ensures Steps(InTableText, Character(data)) < Steps(mode, Character(data)) && Need(mode, Character(data), open) == 2
      ensures Follows(mode, Character(data), InTableText)
    {
      hide Lineage;
      hide Balanced;
      hide Grounded;
      hide EndsScope;
      hide TakesMarker;
      hide IsFormatting;
      hide IsSpecial;
      hide IsPlain;
      hide IsHeading;
      RunningParts(mode, original, open, active, head, t, rank, next);
      hide Sound;
    }

    method TableStartTag(tag: Tag) returns (out: Outcome)
      requires Running(mode, originalMode, open, active, headElement, tree, rank, nextId) && IsRowMode(mode) && ReachesTable(mode, StartTag(tag))
      modifies this
      ensures Handled(StartTag(tag), out, old(mode), old(open), mode, originalMode, open, active, headElement, tree, rank, nextId)
      ensures RegionEffect(StartTag(tag), out, old(mode), old(Snapshot(open, active, tree, nextId)), mode, Snapshot(open, active, tree, nextId))
      decreases Need(mode, StartTag(tag), open), Turns(mode, StartTag(tag)), |open|, 5
    {
      hide *;
      ghost var mode0, s0 := mode, Snapshot(open, active, tree, nextId);
      var n := tag.name;
      RowModes(mode);
      RunningParts(mode, originalMode, open, active, headElement, tree, rank, nextId);
      TableFacts(mode, s0, tag);
      if IsTablePart(n) {
        out := TablePart(tag);
        return;
      }
      if n.Table? {
        out := TableInTable(tag);
        Uncharted(StartTag(tag), out, mode0, s0, mode, Snapshot(open, active, tree, nextId));
        return;
      }
      out := Done(false);
      if n.Style? || n.Script? {
        HeadContentHere(tag);
      } else if n.Input? {
        var _ := VoidHere(tag);
      } else if n.Form? {
        out := TableForm(tag);
      }
      Uncharted(StartTag(tag), out, mode0, s0, mode, Snapshot(open, active, tree, nextId));
      DoneWith(StartTag(tag), out.ignored, mode0, s0.open, mode, originalMode, open, active, headElement, tree, rank, nextId);
    }

    static lemma TableFacts(mode: Mode, s: Snapshot, tag: Tag)
      requires IsRowMode(mode) && ReachesTable(mode, StartTag(tag))
      ensures IsTablePart(tag.name) ==> mode.InTable?
      ensures tag.name.Table? ==> Need(mode, StartTag(tag), s.open) == 2 && Turns(mode, StartTag(tag)) == 4
      ensures IsTablePart(tag.name) && !tag.name.Colgroup? && !tag.name.Tbody? ==> Need(mode, StartTag(tag), s.open) == 2
      ensures TakesText(mode) && (tag.name.Style? || tag.name.Script? ==> IsHeadContent(tag.name))
      ensures tag.name.Input? || tag.name.Form? ==> !TakesMarker(tag.name)
      ensures !IsTablePart(tag.name) ==> !HasRegionStep(mode, StartTag(tag), s.open)
    {
      hide InScope;
    }

    method TableForm(tag: Tag) returns (out: Outcome)
      requires Running(mode, originalMode, open, active, headElement, tree, rank, nextId) && open != [] && tag.name.Form? && !TakesMarker(tag.name)
      modifies `open, `tree, `rank, `nextId, `formElement
      ensures Running(mode, originalMode, open, active, headElement, tree, rank, nextId) && open == old(open)
      ensures out == Done(old(formElement).Some?) && formElement.Some?
    {
      hide *;
      if formElement.Some? {
        return Done(true);
      }
      NamedAfter(nextId, tag);
      var e := VoidHere(tag);
      formElement := Some(e);
      return Done(false);
    }

    // The current node is one of the elements to clear back to: nothing is popped.
    method ClearToContext(names: set<Name>)
      requires open != [] && Top(open).name in names
      modifies `open
      ensures open == old(open)
    {
      hide *;
      TopOfNames(open, names);
      ClearStackBackTo(names);
    }

    method TablePart(tag: Tag) returns (out: Outcome)
      requires Running(mode, originalMode, open, active, headElement, tree, rank, nextId) && mode.InTable? && IsTablePart(tag.name)
      modifies this
      ensures Handled(StartTag(tag), out, old(mode), old(open), mode, originalMode, open, active, headElement, tree, rank, nextId)
      ensures RegionEffect(StartTag(tag), out, old(mode), old(Snapshot(open, active, tree, nextId)), mode, Snapshot(open, active, tree, nextId))
      decreases Need(mode, StartTag(tag), open), Turns(mode, StartTag(tag)), |open|, 4
    {
      hide *;
      ghost var s0 := Snapshot(open, active, tree, nextId);
      var n := tag.name;
      TableOpensPart(originalMode, open, active, headElement, tree, rank, nextId, tag);
      PartSteps(InTable, tag, s0);
      if n.Col? || IsCell(n) || n.Tr? {
        var implied := if n.Col? then Colgroup else Tbody;
        ImpliedPart(implied);
        PartSteps(InTable, Tag(implied, map[]), s0);
        var simulated := Dispatch(StartTag(Tag(implied, map[])));
        HandledRuns(StartTag(Tag(implied, map[])), simulated, InTable, s0.open, mode, originalMode, open, active, headElement, tree, rank, nextId);
        RegionWasDone(StartTag(Tag(implied, map[])), simulated, InTable, s0, mode, Snapshot(open, active, tree, nextId));
        PartImplied(implied, mode, tag);
        NextMode(StartTag(tag), InTable, s0.open, mode, originalMode, open, active, headElement, tree, rank, nextId);
        PartNext(tag, InTable, s0, mode, Snapshot(open, active, tree, nextId));
        return Reprocess(StartTag(tag));
      }
      ClearToContext({Table, Html});
      if n.Caption? {
        OpenCaption(tag);
      } else if n.Colgroup? {
        OpenRegion(tag, InColumnGroup);
      } else {
        OpenRegion(tag, InTableBody);
      }
      RegionDone(StartTag(tag), false, InTable, s0, mode, Snapshot(open, active, tree, nextId));
      DoneWith(StartTag(tag), false, InTable, s0.open, mode, originalMode, open, active, headElement, tree, rank, nextId);
      return Done(false);
    }

    static lemma ImpliedPart(n: Name)
      ensures n.Colgroup? || n.Tbody? || n.Tr? ==> IsTablePart(n)
    {
    }

    // What the start tag of a part of a table comes to: the part itself, or one step towards it.
    static lemma PartSteps(mode: Mode, tag: Tag, s: Snapshot)
      requires IsTablePart(tag.name)
      requires mode.InTable? || mode.InTableBody? || mode.InRow? || mode.InColumnGroup? || mode.InCaption? || mode.InCell?
      ensures HasRegionStep(mode, StartTag(tag), s.open) && RegionMode(mode, StartTag(tag), s) == OpenedBy(tag.name)
      ensures OpensPart(mode, tag.name) ==>
                RegionStep(mode, StartTag(tag), s) == if mode.InColumnGroup? then Voided(s, tag)
                                                      else if mode.InRow? then Marked(s, tag)
                                                      else if tag.name.Caption? then MarkedFirst(s, tag)
                                                      else Opened(s, tag)
      ensures OpensPart(mode, tag.name) <==>
                || (mode.InTable? && (tag.name.Caption? || tag.name.Colgroup? || IsTableBody(tag.name))) || (mode.InTableBody? && tag.name.Tr?)
                || (mode.InRow? && IsCell(tag.name)) || (mode.InColumnGroup? && tag.name.Col?)
      ensures !OpensPart(mode, tag.name) ==>
                RegionStep(mode, StartTag(tag), s) == RegionStep(ModeTowards(mode, tag.name), StartTag(tag), Towards(mode, tag.name, s))
      ensures mode.InTable? ==> Towards(mode, tag.name, s) == Opened(s, Tag(if tag.name.Col? then Colgroup else Tbody, map[]))
      ensures mode.InTableBody? ==> Towards(mode, tag.name, s) == if IsCell(tag.name) then Opened(s, Tag(Tr, map[])) else Closed(s)
      ensures mode.InRow? || mode.InColumnGroup? ==> Towards(mode, tag.name, s) == Closed(s)
      ensures mode.InCaption? || mode.InCell? ==> Towards(mode, tag.name, s) == ClosedRegion(s)
      ensures ModeTowards(mode, tag.name) ==
              if mode.InTable? then (if tag.name.Col? then InColumnGroup else InTableBody)
              else if mode.InTableBody? then (if IsCell(tag.name) then InRow else InTable)
              else if mode.InRow? then InTableBody
              else if mode.InCell? then InRow
              else InTable
      ensures tag.name.Col? || tag.name.Tr? || IsCell(tag.name) ==> !IsTableBody(tag.name) && !tag.name.Caption? && !tag.name.Colgroup?
      ensures IsCell(tag.name) ==> !tag.name.Col? && !tag.name.Tr?
      ensures OpenedBy(tag.name) == (if tag.name.Caption? then InCaption else if tag.name.Col? || tag.name.Colgroup? then InColumnGroup
                                     else if IsTableBody(tag.name) then InTableBody else if tag.name.Tr? then InRow else InCell)
    {
      PartStepIs(mode, tag, s);
      hide PartStep;
      hide Opened;
      hide Marked;
      hide MarkedFirst;
      hide Voided;
      hide Closed;
      hide ClosedRegion;
    }

    // One step towards the place of a part leaves it to be opened.
    static lemma PartNext(tag: Tag, mode0: Mode, s0: Snapshot, mode: Mode, s: Snapshot)
      requires IsTablePart(tag.name) && IsTableMode(mode0) && !OpensPart(mode0, tag.name)
      requires mode == ModeTowards(mode0, tag.name) && s == Towards(mode0, tag.name, s0)
      ensures RegionEffect(StartTag(tag), Reprocess(StartTag(tag)), mode0, s0, mode, s)
    {
      PartStepIs(mode0, tag, s0);
      hide PartStep;
      hide Towards;
    }

    static lemma TableOpensPart(original: Mode, open: Stack, active: Entries, head: Option<Element>, t: Tree, rank: map<NodeId, real>, next: NodeId, tag: Tag)
      requires Running(InTable, original, open, active, head, t, rank, next) && IsTablePart(tag.name)
      ensures open != [] && Top(open).name in {Table, Html} && !IsQuiet(InColumnGroup) && !IsQuiet(InTableBody)
      ensures tag.name.Colgroup? ==> ZoneOf(open + [NewElement(next, tag)]) == Home(InColumnGroup) && !TakesMarker(tag.name)
      ensures IsTableBody(tag.name) ==> ZoneOf(open + [NewElement(next, tag)]) == Home(InTableBody) && !TakesMarker(tag.name)
      ensures tag.name.Col? || IsCell(tag.name) || tag.name.Tr? ==> Need(InTable, StartTag(tag), open) == 2
      ensures Need(InTable, StartTag(Tag(Colgroup, map[])), open) == 0 == Need(InTable, StartTag(Tag(Tbody, map[])), open)
      ensures !(tag.name.Col? || IsCell(tag.name) || tag.name.Tr? || tag.name.Caption? || tag.name.Colgroup?) ==> IsTableBody(tag.name)
    {
      hide Sound;
      hide ZoneFrom;
      hide InScope;
      TableShape(open);
      ZonePush(open, NewElement(next, tag));
    }

    static lemma PartImplied(implied: Name, mode: Mode, tag: Tag)
      requires (implied.Colgroup? && tag.name.Col?) || (implied.Tbody? && (IsCell(tag.name) || tag.name.Tr?))
      requires mode == OpenedBy(implied)
      ensures Steps(mode, StartTag(tag)) < Steps(InTable, StartTag(tag)) && Follows(InTable, StartTag(tag), mode)
      ensures IsTableMode(InTable) && mode == if tag.name.Col? then InColumnGroup else InTableBody
    {
    }

    // A table directly in a table ends the one it is in.
    method TableInTable(tag: Tag) returns (out: Outcome)
      requires Running(mode, originalMode, open, active, headElement, tree, rank, nextId) && IsRowMode(mode) && tag.name.Table?
      modifies this
      ensures Handled(StartTag(tag), out, old(mode), old(open), mode, originalMode, open, active, headElement, tree, rank, nextId)
      ensures out == Reprocess(StartTag(tag)) && mode == FlowMode(open) && ObeysTableEnd(old(mode))
      ensures Snapshot(open, active, tree, nextId) == TableEndStep(old(mode), old(Snapshot(open, active, tree, nextId)))
      decreases 2, 0, 0, 0
    {
      hide *;
      ghost var mode0, s0 := mode, Snapshot(open, active, tree, nextId);
      TableEndNeed(mode, open);
      RowZones(mode);
      TableEndSteps(mode, Tag(Table, map[]), s0);
      RunningParts(mode, originalMode, open, active, headElement, tree, rank, nextId);
      TableEndsInFlow(mode, s0);
      var simulated := Dispatch(EndTag(Tag(Table, map[])));
      HandledRuns(EndTag(Tag(Table, map[])), simulated, mode0, s0.open, mode, originalMode, open, active, headElement, tree, rank, nextId);
      RegionWasDone(EndTag(Tag(Table, map[])), simulated, mode0, s0, mode, Snapshot(open, active, tree, nextId));
      TableHasEnded(mode0, s0.open, mode, tag);
      if simulated == Done(true) {
        return Done(false);
      }
      NextMode(StartTag(tag), mode0, s0.open, mode, originalMode, open, active, headElement, tree, rank, nextId);
      return Reprocess(StartTag(tag));
    }

    static lemma RowZones(mode: Mode)
      requires IsRowMode(mode)
      ensures !IsSelectMode(mode) && ObeysTableEnd(mode) && !mode.Text? && !mode.InTableText?
    {
    }

    // What the end tag of a table comes to.
    static lemma TableEndSteps(mode: Mode, tag: Tag, s: Snapshot)
      requires ObeysTableEnd(mode) && tag.name.Table?
      ensures HasRegionStep(mode, EndTag(tag), s.open) && !IsSelectMode(mode)
      ensures RegionStep(mode, EndTag(tag), s) == TableEndStep(mode, s) && RegionMode(mode, EndTag(tag), s) == FlowMode(TableEndStep(mode, s).open)
      ensures mode.InTable? ==> TableEndStep(mode, s) == Closed(s)
      ensures mode.InTableBody? ==> TableEndStep(mode, s) == TableEndStep(InTable, Closed(s))
      ensures mode.InRow? ==> TableEndStep(mode, s) == TableEndStep(InTableBody, Closed(s))
      ensures mode.InCell? ==> TableEndStep(mode, s) == TableEndStep(InRow, ClosedRegion(s))
      ensures mode.InCaption? ==> TableEndStep(mode, s) == TableEndStep(InTable, ClosedRegion(s))
    {
      hide Closed;
      hide ClosedRegion;
      hide FlowMode;
    }

    static lemma TableEndsInFlow(mode: Mode, s: Snapshot)
      requires ObeysTableEnd(mode) && ZoneOf(s.open) == Home(mode)
      ensures IsBodyMode(FlowMode(TableEndStep(mode, s).open))
    {
      TableEndCloses(mode, s);
      hide TableEndStep;
    }

    // The token ends a part of the table on its way to the end of the table.
    static lemma TableEndNext(tag: Tag, mode0: Mode, s0: Snapshot, mode: Mode, s: Snapshot)
      requires tag.name.Table? && ObeysTableEnd(mode0) && ObeysTableEnd(mode) && TableEndStep(mode, s) == TableEndStep(mode0, s0)
      ensures RegionEffect(EndTag(tag), Reprocess(EndTag(tag)), mode0, s0, mode, s)
    {
      hide TableEndStep;
      hide FlowMode;
    }

    static lemma TableEndNeed(mode: Mode, open: Stack)
      requires IsRowMode(mode)
      ensures Need(mode, EndTag(Tag(Table, map[])), open) == 1
    {
      NeedOfTableEnd(mode, EndTag(Tag(Table, map[])), open);
    }

    static lemma TableHasEnded(mode0: Mode, open0: Stack, mode: Mode, tag: Tag)
      requires IsRowMode(mode0) && tag.name.Table? && IsBodyMode(mode)
      ensures Steps(mode, StartTag(tag)) < Steps(mode0, StartTag(tag)) && Need(mode0, StartTag(tag), open0) == 2 && Follows(mode0, StartTag(tag), mode)
    {
      hide InScope;
    }

    method TableEndTag(tag: Tag) returns (out: Outcome)
      requires Running(mode, originalMode, open, active, headElement, tree, rank, nextId) && IsRowMode(mode) && ReachesTable(mode, EndTag(tag))
      modifies `mode, `open
      ensures Handled(EndTag(tag), out, old(mode), old(open), mode, originalMode, open, active, headElement, tree, rank, nextId)
      ensures RegionEffect(EndTag(tag), out, old(mode), old(Snapshot(open, active, tree, nextId)), mode, Snapshot(open, active, tree, nextId))
      ensures !tag.name.Table? ==> mode == old(mode) && open == old(open)
    {
      hide *;
      ghost var mode0, s0 := mode, Snapshot(open, active, tree, nextId);
      EndTagInTable(mode, tag, s0);
      var n := tag.name;
      if n.Table? {
        RowZones(mode);
        TableEndSteps(mode, tag, s0);
        TableCloses(originalMode, open, active, headElement, tree, rank, nextId);
        var inScope := HasElementInScope({Table}, TableScope);
        out := Done(!inScope);
        if inScope {
          CloseTable();
        }
      } else {
        out := Done(n.Body? || n.Html? || IsTablePart(n));
      }
      RegionDone(EndTag(tag), out.ignored, mode0, s0, mode, Snapshot(open, active, tree, nextId));
      DoneWith(EndTag(tag), out.ignored, mode0, s0.open, mode, originalMode, open, active, headElement, tree, rank, nextId);
    }

    static lemma EndTagInTable(mode: Mode, tag: Tag, s: Snapshot)
      requires IsRowMode(mode) && ReachesTable(mode, EndTag(tag))
      ensures tag.name.Table? ==> mode.InTable?
      ensures !tag.name.Table? ==> !HasRegionStep(mode, EndTag(tag), s.open)
    {
      hide InScope;
    }

    method TableTextRules(token: Token) returns (out: Outcome)
      requires Running(mode, originalMode, open, active, headElement, tree, rank, nextId) && mode.InTableText?
      modifies this
      ensures Handled(token, out, old(mode), old(open), mode, originalMode, open, active, headElement, tree, rank, nextId)
      ensures open == old(open)
    {
      hide *;
      ghost var open0 := open;
      RunningParts(mode, originalMode, open, active, headElement, tree, rank, nextId);
      if token.Character? {
        var ignored := token.data == 0 as char;
        if !ignored {
          pendingTableCharacters := pendingTableCharacters + [token.data];
        }
        DoneWith(token, ignored, InTableText, open0, mode, originalMode, open, active, headElement, tree, rank, nextId);
        return Done(ignored);
      }
      FlushTableText();
      TableTextEnds(token, originalMode, open, active, headElement, tree, rank, nextId);
      SwitchMode(originalMode);
      NextMode(token, InTableText, open0, mode, originalMode, open, active, headElement, tree, rank, nextId);
      return Reprocess(token);
    }

    // White space is inserted; with anything else among them the characters are dropped.
    method FlushTableText()
      requires Running(mode, originalMode, open, active, headElement, tree, rank, nextId) && open != []
      modifies `tree, `rank, `nextId
      ensures Running(mode, originalMode, open, active, headElement, tree, rank, nextId)
      ensures if exists i :: 0 <= i < |pendingTableCharacters| && !IsWhitespace(pendingTableCharacters[i])
              then tree == old(tree)
              else TextAt(tree, Top(open).id) == TextAt(old(tree), Top(open).id) + pendingTableCharacters
    {
      hide *;
      var i := 0;
      while i < |pendingTableCharacters|
        invariant 0 <= i <= |pendingTableCharacters|
        invariant forall j :: 0 <= j < i ==> IsWhitespace(pendingTableCharacters[j])
      {
        if !IsWhitespace(pendingTableCharacters[i]) {
          return;
        }
        i := i + 1;
      }
      i := 0;
      while i < |pendingTableCharacters|
        invariant 0 <= i <= |pendingTableCharacters|
        invariant Running(mode, originalMode, open, active, headElement, tree, rank, nextId)
        invariant TextAt(tree, Top(open).id) == TextAt(old(tree), Top(open).id) + pendingTableCharacters[..i]
      {
        CharacterHere(pendingTableCharacters[i]);
        i := i + 1;
      }
    }

    static lemma TableTextEnds(token: Token, original: Mode, open: Stack, active: Entries, head: Option<Element>, t: Tree, rank: map<NodeId, real>, next: NodeId)
      requires Running(InTableText, original, open, active, head, t, rank, next) && !token.Character?
      ensures !original.Text? && !original.InTableText? && Running(original, original, open, active, head, t, rank, next)
      ensures Steps(original, token) < Steps(InTableText, token) && Need(InTableText, token, open) == 2 && Follows(InTableText, token, original)
    {
      hide Sound;
      hide ZoneOf;
      hide InScope;
    }

    // ---------------------------------------------------------------------------------------------
    // In a table body and in a row

    static lemma PartNeeds(mode: Mode, token: Token, open: Stack)
      requires mode.InCell? || mode.InCaption? || mode.InTableBody? || mode.InRow? || mode.InColumnGroup?
      ensures Turns(mode, token) > 0
      ensures token.StartTag? && IsTablePart(token.tag.name) && !(mode.InTableBody? && token.tag.name.Tr?) ==> Need(mode, token, open) == 2
      ensures token.EndTag? && token.tag.name.Table? ==> Need(mode, token, open) >= 1
      ensures token.EndTag? && IsTableBody(token.tag.name) && !mode.InTableBody? ==> Need(mode, token, open) == 2
      ensures token.EndTag? && token.tag.name.Tr? && !mode.InRow? ==> Need(mode, token, open) == 2
      ensures mode.InColumnGroup? && !token.EndTag? ==> Need(mode, token, open) == 2
    {
      hide InScope;
    }

    method TableBodyRules(token: Token) returns (out: Outcome)
      requires Running(mode, originalMode, open, active, headElement, tree, rank, nextId) && mode.InTableBody?
      modifies this
      ensures Handled(token, out, old(mode), old(open), mode, originalMode, open, active, headElement, tree, rank, nextId)
      ensures RegionEffect(token, out, old(mode), old(Snapshot(open, active, tree, nextId)), mode, Snapshot(open, active, tree, nextId))
      ensures token.Comment? ==> out == Done(false) && mode == old(mode) && open == old(open) && active == old(active)
      ensures token.Comment? ==> open != [] && Top(open).id in old(tree) && tree == Grown(old(tree), Top(open).id, old(nextId), CommentNode(token.text))
      decreases Need(mode, token, open), Turns(mode, token), |open|, 7
    {
      hide *;
      ghost var s0 := Snapshot(open, active, tree, nextId);
      TableBodyFacts(token, originalMode, open, active, headElement, tree, rank, nextId);
      PartNeeds(mode, token, open);
      RowEndings(InTableBody, token, s0);
      ClosedIs(s0);
      if token.StartTag? && IsTablePart(token.tag.name) {
        PartSteps(InTableBody, token.tag, s0);
      }
      if token.StartTag? && token.tag.name.Tr? {
        ImpliedPart(token.tag.name);
        ClearToContext({Tbody, Tfoot, Thead, Html});
        OpenRegion(token.tag, InRow);
        out := Done(false);
      } else if token.StartTag? && IsCell(token.tag.name) {
        ImpliedPart(Tr);
        CellIsPart(token.tag.name);
        PartSteps(InTableBody, Tag(Tr, map[]), s0);
        var simulated := Dispatch(StartTag(Tag(Tr, map[])));
        HandledRuns(StartTag(Tag(Tr, map[])), simulated, InTableBody, s0.open, mode, originalMode, open, active, headElement, tree, rank, nextId);
        RegionWasDone(StartTag(Tag(Tr, map[])), simulated, InTableBody, s0, mode, Snapshot(open, active, tree, nextId));
        RowImplied(mode, token);
        NextMode(token, InTableBody, s0.open, mode, originalMode, open, active, headElement, tree, rank, nextId);
        PartNext(token.tag, InTableBody, s0, mode, Snapshot(open, active, tree, nextId));
        return Reprocess(token);
      } else if (token.StartTag? && IsTablePart(token.tag.name)) || (token.EndTag? && token.tag.name.Table?) {
        out := LeaveTableBody(token);
        return;
      } else if token.EndTag? && IsTableBody(token.tag.name) {
        var inScope := HasElementInScope({token.tag.name}, TableScope);
        if inScope {
          ClearToContext({Tbody, Tfoot, Thead, Html});
          CloseRegion(InTable);
        }
        out := Done(!inScope);
      } else if token.EndTag? && (IsTablePart(token.tag.name) || token.tag.name.Body? || token.tag.name.Html?) {
        out := Done(true);
      } else {
        out := TableRules(token);
        return;
      }
      RegionDone(token, out.ignored, InTableBody, s0, mode, Snapshot(open, active, tree, nextId));
      DoneWith(token, out.ignored, InTableBody, s0.open, mode, originalMode, open, active, headElement, tree, rank, nextId);
    }

    static lemma CellIsPart(n: Name)
      requires IsCell(n)
      ensures IsTablePart(n) && !n.Tr? && !n.Table? && IsTableMode(InTableBody)
    {
    }

    // What the end tags of a table body, of a row and of the other parts of a table come to.
    static lemma RowEndings(mode: Mode, token: Token, s: Snapshot)
      requires mode.InTableBody? || mode.InRow?
      ensures token.EndTag? && !token.tag.name.Table? ==>
                (HasRegionStep(mode, token, s.open) <==>
                 || (mode.InTableBody? && IsTableBody(token.tag.name) && s.open != [] && token.tag.name == Top(s.open).name)
                 || (mode.InRow? && token.tag.name.Tr?))
      ensures token.EndTag? && (if mode.InRow? then token.tag.name.Tr? else IsTableBody(token.tag.name)) ==>
                && RegionStep(mode, token, s) == Closed(s) && RegionMode(mode, token, s) == (if mode.InRow? then InTableBody else InTable)
                && !token.tag.name.Table?
      ensures !token.StartTag? && !token.EndTag? ==> !HasRegionStep(mode, token, s.open)
      ensures token.StartTag? && !IsTablePart(token.tag.name) ==> !HasRegionStep(mode, token, s.open)
      ensures token.StartTag? && (token.tag.name.Tr? || IsCell(token.tag.name)) ==> IsTablePart(token.tag.name)
      ensures token.EndTag? && (IsTableBody(token.tag.name) || token.tag.name.Tr?) ==> IsTablePart(token.tag.name)
    {
      hide Closed;
    }

    static lemma TableBodyFacts(token: Token, original: Mode, open: Stack, active: Entries, head: Option<Element>, t: Tree, rank: map<NodeId, real>, next: NodeId)
      requires Running(InTableBody, original, open, active, head, t, rank, next)
      ensures open != [] && Top(open).name in {Tbody, Tfoot, Thead, Html} && IsRowMode(InTableBody) && !IsQuiet(InRow) && !IsQuiet(InTable)
      ensures ZoneOf(open[..|open| - 1]) == Home(InTable)
      ensures InScope(open, {Top(open).name}, TableScope) && IsTableBody(Top(open).name)
      ensures token.StartTag? && token.tag.name.Tr? ==> ZoneOf(open + [NewElement(next, token.tag)]) == Home(InRow) && !TakesMarker(token.tag.name)
      ensures token.StartTag? && IsCell(token.tag.name) ==> Need(InTableBody, token, open) == 2
      ensures Need(InTableBody, StartTag(Tag(Tr, map[])), open) == 0
      ensures !(token.StartTag? && IsTablePart(token.tag.name)) && !(token.EndTag? && (token.tag.name.Table? || IsTableBody(token.tag.name) || IsTablePart(token.tag.name))) ==>
                ReachesTable(InTableBody, token)
    {
      hide Sound;
      hide ZoneFrom;
      hide InScope;
      TableBodyShape(open);
      ZoneBelowBody(open);
      TopInScope(open, Top(open).name);
      if token.StartTag? {
        ZonePush(open, NewElement(next, token.tag));
      }
    }

    static lemma ZoneBelowBody(open: Stack)
      ensures ZoneOf(open) == TableBodyZone ==> open != [] && ZoneOf(open[..|open| - 1]) == TableZone
      ensures ZoneOf(open) == RowZone ==> open != [] && ZoneOf(open[..|open| - 1]) == TableBodyZone
      ensures ZoneOf(open) == ColgroupZone ==> open != [] && ZoneOf(open[..|open| - 1]) == TableZone
    {
    }

    static lemma RowImplied(mode: Mode, token: Token)
      requires token.StartTag? && IsCell(token.tag.name) && mode == OpenedBy(Tr)
      ensures Steps(mode, token) < Steps(InTableBody, token) && Follows(InTableBody, token, mode)
      ensures mode.InRow?
    {
    }

    // Ends the table body, by its own name, for a token that belongs to the table.
    method LeaveTableBody(token: Token) returns (out: Outcome)
      requires Running(mode, originalMode, open, active, headElement, tree, rank, nextId) && mode.InTableBody?
      requires (token.StartTag? && IsTablePart(token.tag.name) && !token.tag.name.Tr? && !IsCell(token.tag.name)) || (token.EndTag? && token.tag.name.Table?)
      modifies this
      ensures Handled(token, out, old(mode), old(open), mode, originalMode, open, active, headElement, tree, rank, nextId)
      ensures RegionEffect(token, out, old(mode), old(Snapshot(open, active, tree, nextId)), mode, Snapshot(open, active, tree, nextId))
      ensures out == Reprocess(token) && mode.InTable? && Snapshot(open, active, tree, nextId) == Closed(old(Snapshot(open, active, tree, nextId)))
      decreases 1, 0, 0, 0
    {
      hide *;
      ghost var s0 := Snapshot(open, active, tree, nextId);
      TableBodyFacts(token, originalMode, open, active, headElement, tree, rank, nextId);
      LeavesTableBody(token, open);
      RowEndings(InTableBody, EndTag(Tag(open[|open| - 1].name, map[])), s0);
      var inBody := HasElementInScope({Tbody}, TableScope);
      var inHead := HasElementInScope({Thead}, TableScope);
      var inFoot := HasElementInScope({Tfoot}, TableScope);
      // One of the three is always in scope, or the token would be ignored.
      assert inBody || inHead || inFoot;
      ClearToContext({Tbody, Tfoot, Thead, Html});
      ghost var own := EndTag(Tag(open[|open| - 1].name, map[]));
      var simulated := Dispatch(EndTag(Tag(open[|open| - 1].name, map[])));
      HandledRuns(own, simulated, InTableBody, s0.open, mode, originalMode, open, active, headElement, tree, rank, nextId);
      RegionWasDone(own, simulated, InTableBody, s0, mode, Snapshot(open, active, tree, nextId));
      BodyOfTableEnded(s0.open, token);
      NextMode(token, InTableBody, s0.open, mode, originalMode, open, active, headElement, tree, rank, nextId);
      PartLeft(token, InTableBody, s0, mode, Snapshot(open, active, tree, nextId));
      return Reprocess(token);
    }

    // A part is closed for a token that belongs further out in the table.
    static lemma PartLeft(token: Token, mode0: Mode, s0: Snapshot, mode: Mode, s: Snapshot)
      requires (token.StartTag? && IsTablePart(token.tag.name)) || (token.EndTag? && token.tag.name.Table?)
      requires || (mode0.InTableBody? && mode.InTable? && s == Closed(s0) && (token.StartTag? ==> !token.tag.name.Tr? && !IsCell(token.tag.name)))
               || (mode0.InRow? && mode.InTableBody? && s == Closed(s0) && (token.StartTag? ==> !IsCell(token.tag.name)))
               || (mode0.InCell? && mode.InRow? && s == ClosedRegion(s0))
               || (mode0.InCaption? && mode.InTable? && s == ClosedRegion(s0))
      ensures RegionEffect(token, Reprocess(token), mode0, s0, mode, s)
    {
      hide *;
      ModesLeft(mode0, mode);
      if token.StartTag? {
        PartSteps(mode0, token.tag, s0);
        PartNext(token.tag, mode0, s0, mode, s);
      } else {
        TableEndSteps(mode0, token.tag, s0);
        TableEndNext(token.tag, mode0, s0, mode, s);
      }
    }

    static lemma ModesLeft(mode0: Mode, mode: Mode)
      ensures mode0.InTableBody? || mode0.InRow? || mode0.InCell? || mode0.InCaption? ==> IsTableMode(mode0) && ObeysTableEnd(mode0)
      ensures mode.InTable? || mode.InTableBody? || mode.InRow? ==> ObeysTableEnd(mode)
    {
    }

    static lemma LeavesTableBody(token: Token, open: Stack)
      requires open != [] && IsTableBody(Top(open).name) && InScope(open, {Top(open).name}, TableScope)
      ensures InScope(open, {Tbody}, TableScope) || InScope(open, {Thead}, TableScope) || InScope(open, {Tfoot}, TableScope)
      ensures Top(open) == open[|open| - 1] && Need(InTableBody, EndTag(Tag(open[|open| - 1].name, map[])), open) == 0
    {
      var n := Top(open).name;
      assert n == Tbody || n == Thead || n == Tfoot;
      hide InScope;
    }

    static lemma BodyOfTableEnded(open0: Stack, token: Token)
      requires (token.StartTag? && IsTablePart(token.tag.name) && !token.tag.name.Tr? && !IsCell(token.tag.name)) || (token.EndTag? && token.tag.name.Table?)
      ensures Steps(InTable, token) < Steps(InTableBody, token) && Follows(InTableBody, token, InTable)
      ensures Need(InTableBody, token, open0) == 2 || (token.EndTag? && token.tag.name.Table? && IsRowMode(InTableBody) && IsRowMode(InTable))
    {
      hide InScope;
    }

    method RowRules(token: Token) returns (out: Outcome)
      requires Running(mode, originalMode, open, active, headElement, tree, rank, nextId) && mode.InRow?
      modifies this
      ensures Handled(token, out, old(mode), old(open), mode, originalMode, open, active, headElement, tree, rank, nextId)
      ensures RegionEffect(token, out, old(mode), old(Snapshot(open, active, tree, nextId)), mode, Snapshot(open, active, tree, nextId))
      ensures token.Comment? ==> out == Done(false) && mode == old(mode) && open == old(open) && active == old(active)
      ensures token.Comment? ==> open != [] && Top(open).id in old(tree) && tree == Grown(old(tree), Top(open).id, old(nextId), CommentNode(token.text))
      decreases Need(mode, token, open), Turns(mode, token), |open|, 7
    {
      hide *;
      ghost var s0 := Snapshot(open, active, tree, nextId);
      RowFacts(token, originalMode, open, active, headElement, tree, rank, nextId);
      PartNeeds(mode, token, open);
      RowEndings(InRow, token, s0);
      ClosedIs(s0);
      if token.StartTag? && IsTablePart(token.tag.name) {
        PartSteps(InRow, token.tag, s0);
      }
      if token.StartTag? && IsCell(token.tag.name) {
        ClearToContext({Tr, Html});
        OpenCell(token.tag);
        out := Done(false);
      } else if (token.StartTag? && IsTablePart(token.tag.name)) || (token.EndTag? && token.tag.name.Table?) {
        out := LeaveRow(token);
        return;
      } else if token.EndTag? && token.tag.name.Tr? {
        var inScope := HasElementInScope({Tr}, TableScope);
        if inScope {
          ClearToContext({Tr, Html});
          CloseRegion(InTableBody);
        }
        out := Done(!inScope);
      } else if token.EndTag? && IsTableBody(token.tag.name) {
        var inScope := HasElementInScope({token.tag.name}, TableScope);
        if inScope {
          out := LeaveRow(token);
          return;
        }
        out := Done(true);
      } else if token.EndTag? && (IsTablePart(token.tag.name) || token.tag.name.Body? || token.tag.name.Html?) {
        out := Done(true);
      } else {
        out := TableRules(token);
        return;
      }
      RegionDone(token, out.ignored, InRow, s0, mode, Snapshot(open, active, tree, nextId));
      DoneWith(token, out.ignored, InRow, s0.open, mode, originalMode, open, active, headElement, tree, rank, nextId);
    }

    static lemma RowFacts(token: Token, original: Mode, open: Stack, active: Entries, head: Option<Element>, t: Tree, rank: map<NodeId, real>, next: NodeId)
      requires Running(InRow, original, open, active, head, t, rank, next)
      ensures open != [] && Top(open).name in {Tr, Html} && IsRowMode(InRow) && !IsQuiet(InTableBody)
      ensures ZoneOf(open[..|open| - 1]) == Home(InTableBody)
      ensures InScope(open, {Tr}, TableScope)
      ensures token.EndTag? && IsTableBody(token.tag.name) ==> Need(InRow, token, open) == 2
      ensures !(token.StartTag? && IsTablePart(token.tag.name)) && !(token.EndTag? && (token.tag.name.Table? || IsTableBody(token.tag.name) || token.tag.name.Tr?)) ==>
                ReachesTable(InRow, token)
    {
      hide Sound;
      hide ZoneFrom;
      hide InScope;
      RowShape(open);
      ZoneBelowBody(open);
      TopInScope(open, Tr);
    }

    // Ends the row for a token that belongs to the table body or the table.
    method LeaveRow(token: Token) returns (out: Outcome)
      requires Running(mode, originalMode, open, active, headElement, tree, rank, nextId) && mode.InRow?
      requires (token.StartTag? && IsTablePart(token.tag.name) && !IsCell(token.tag.name)) || (token.EndTag? && (token.tag.name.Table? || IsTableBody(token.tag.name)))
      modifies this
      ensures Handled(token, out, old(mode), old(open), mode, originalMode, open, active, headElement, tree, rank, nextId)
      ensures RegionEffect(token, out, old(mode), old(Snapshot(open, active, tree, nextId)), mode, Snapshot(open, active, tree, nextId))
      ensures out == Reprocess(token) && mode.InTableBody? && Snapshot(open, active, tree, nextId) == Closed(old(Snapshot(open, active, tree, nextId)))
      decreases 1, 0, 0, 0
    {
      hide *;
      ghost var s0 := Snapshot(open, active, tree, nextId);
      RowEndNeed(open);
      RowEndings(InRow, EndTag(Tag(Tr, map[])), s0);
      RowEndings(InRow, token, s0);
      var simulated := Dispatch(EndTag(Tag(Tr, map[])));
      HandledRuns(EndTag(Tag(Tr, map[])), simulated, InRow, s0.open, mode, originalMode, open, active, headElement, tree, rank, nextId);
      RegionWasDone(EndTag(Tag(Tr, map[])), simulated, InRow, s0, mode, Snapshot(open, active, tree, nextId));
      RowHasEnded(s0.open, token);
      if simulated == Done(true) {
        return Done(false);
      }
      NextMode(token, InRow, s0.open, mode, originalMode, open, active, headElement, tree, rank, nextId);
      if token.StartTag? || token.tag.name.Table? {
        PartLeft(token, InRow, s0, mode, Snapshot(open, active, tree, nextId));
      } else {
        Uncharted(token, Reprocess(token), InRow, s0, mode, Snapshot(open, active, tree, nextId));
      }
      return Reprocess(token);
    }

    static lemma RowEndNeed(open: Stack)
      ensures Need(InRow, EndTag(Tag(Tr, map[])), open) == 0 && !IsSelectMode(InRow)
    {
    }

    static lemma RowHasEnded(open0: Stack, token: Token)
      requires (token.StartTag? && IsTablePart(token.tag.name) && !IsCell(token.tag.name)) || (token.EndTag? && (token.tag.name.Table? || IsTableBody(token.tag.name)))
      ensures Steps(InTableBody, token) < Steps(InRow, token) && Follows(InRow, token, InTableBody)
      ensures Need(InRow, token, open0) == 2 || (token.EndTag? && token.tag.name.Table? && IsRowMode(InRow) && IsRowMode(InTableBody))
      ensures token.EndTag? && IsTableBody(token.tag.name) ==> !token.tag.name.Table? && !token.tag.name.Tr?
    {
      hide InScope;
    }

    // ---------------------------------------------------------------------------------------------
    // In a cell, a caption and a column group

    method CellRules(token: Token) returns (out: Outcome)
      requires Running(mode, originalMode, open, active, headElement, tree, rank, nextId) && mode.InCell?
      modifies this
      ensures Handled(token, out, old(mode), old(open), mode, originalMode, open, active, headElement, tree, rank, nextId)
      ensures BodyEffect(token, out, old(mode), old(Snapshot(open, active, tree, nextId)), old(quirks), scriptingFlag, old(formElement),
                         mode, Snapshot(open, active, tree, nextId), formElement)
      ensures RegionEffect(token, out, old(mode), old(Snapshot(open, active, tree, nextId)), mode, Snapshot(open, active, tree, nextId))
      ensures FaultIs(token, out, old(mode), old(Snapshot(open, active, tree, nextId)), mode, Snapshot(open, active, tree, nextId))
      ensures token.Comment? ==> out == Done(false) && mode == old(mode) && open == old(open) && active == old(active)
      ensures token.Comment? ==> open != [] && Top(open).id in old(tree) && tree == Grown(old(tree), Top(open).id, old(nextId), CommentNode(token.text))
      decreases Need(mode, token, open), Turns(mode, token), |open|, 7
    {
      hide *;
      ghost var s0, quirks0, form0 := Snapshot(open, active, tree, nextId), quirks, formElement;
      CellFacts(token, originalMode, open, active, headElement, tree, rank, nextId);
      PartNeeds(mode, token, open);
      CellEndings(InCell, token, s0);
      if token.StartTag? && IsTablePart(token.tag.name) {
        out := LeaveCell(token);
      } else if token.EndTag? && IsCell(token.tag.name) {
        var inScope := HasElementInScope({token.tag.name}, TableScope);
        if inScope {
          CloseMarkedRegion(token.tag.name, InRow);
        }
        out := Done(!inScope);
        RegionDone(token, out.ignored, InCell, s0, mode, Snapshot(open, active, tree, nextId));
        DoneWith(token, out.ignored, InCell, s0.open, mode, originalMode, open, active, headElement, tree, rank, nextId);
      } else if token.EndTag? && (token.tag.name.Body? || token.tag.name.Caption? || token.tag.name.Col? || token.tag.name.Colgroup? || token.tag.name.Html?) {
        out := Done(true);
        RegionDone(token, out.ignored, InCell, s0, mode, Snapshot(open, active, tree, nextId));
        DoneWith(token, out.ignored, InCell, s0.open, mode, originalMode, open, active, headElement, tree, rank, nextId);
      } else if token.EndTag? && (token.tag.name.Table? || IsTableBody(token.tag.name) || token.tag.name.Tr?) {
        var inScope := HasElementInScope({token.tag.name}, TableScope);
        assert token.tag.name.Table? ==> inScope by { assert token.tag.name.Table? ==> token.tag.name == Table; }
        if inScope {
          out := LeaveCell(token);
        } else {
          out := Done(true);
          RegionDone(token, out.ignored, InCell, s0, mode, Snapshot(open, active, tree, nextId));
          DoneWith(token, out.ignored, InCell, s0.open, mode, originalMode, open, active, headElement, tree, rank, nextId);
        }
      } else {
        out := BodyRules(token);
        Uncharted(token, out, InCell, s0, mode, Snapshot(open, active, tree, nextId));
        return;
      }
      EffectFree(token, out, InCell, s0, quirks0, scriptingFlag, form0, mode, Snapshot(open, active, tree, nextId), formElement);
      HandledNoFault(token, out, InCell, s0, mode, originalMode, Snapshot(open, active, tree, nextId), headElement, rank);
    }

    // Tags of tables, of the body and of the root are not claimed to have an effect in a cell or a caption
    // that `BodyStep` gives.
    static lemma EffectFree(token: Token, out: Outcome, mode0: Mode, s0: Snapshot, quirks: bool, scripting: bool, form0: Option<FormElement>,
                            mode: Mode, s: Snapshot, form: Option<FormElement>)
      requires !HasStep(mode0, token)
      ensures BodyEffect(token, out, mode0, s0, quirks, scripting, form0, mode, s, form)
    {
      hide HasStep;
    }

    // What the tokens that a cell and a caption deal with themselves come to.
    static lemma CellEndings(mode: Mode, token: Token, s: Snapshot)
      requires mode.InCell? || mode.InCaption?
      ensures token.EndTag? && !token.tag.name.Table? ==>
                (HasRegionStep(mode, token, s.open) <==>
                 || (mode.InCell? && IsCell(token.tag.name) && InScope(s.open, {token.tag.name}, TableScope))
                 || (mode.InCaption? && token.tag.name.Caption?))
      ensures token.EndTag? && (if mode.InCell? then IsCell(token.tag.name) else token.tag.name.Caption?) ==>
                && RegionStep(mode, token, s) == ClosedRegion(s) && RegionMode(mode, token, s) == (if mode.InCell? then InRow else InTable)
                && !token.tag.name.Table?
      ensures !token.StartTag? && !token.EndTag? ==> !HasRegionStep(mode, token, s.open)
      ensures token.StartTag? && !IsTablePart(token.tag.name) ==> !HasRegionStep(mode, token, s.open)
      ensures (token.StartTag? && IsTablePart(token.tag.name))
              || (token.EndTag? && (IsTablePart(token.tag.name) || token.tag.name.Table? || token.tag.name.Body? || token.tag.name.Html?)) ==>
                !HasStep(mode, token) && !MayFailIn(mode, token)
      ensures token.EndTag? && (IsCell(token.tag.name) || IsTableBody(token.tag.name)) ==>
                IsTablePart(token.tag.name) && !token.tag.name.Table? && !token.tag.name.Caption?
      ensures token.EndTag? && IsTableBody(token.tag.name) ==> !IsCell(token.tag.name)
      ensures token.EndTag? && (token.tag.name.Tr? || token.tag.name.Caption? || token.tag.name.Col? || token.tag.name.Colgroup?) ==>
                IsTablePart(token.tag.name) && !IsCell(token.tag.name)
      ensures token.EndTag? && (token.tag.name.Body? || token.tag.name.Html? || token.tag.name.Table?) ==> !IsCell(token.tag.name)
    {
      hide ClosedRegion;
      hide InScope;
    }

    static lemma CellFacts(token: Token, original: Mode, open: Stack, active: Entries, head: Option<Element>, t: Tree, rank: map<NodeId, real>, next: NodeId)
      requires Running(InCell, original, open, active, head, t, rank, next)
      ensures Flowing(InCell, open, active, t, rank, next) && InScope(open, {Table}, TableScope)
      ensures !(token.StartTag? && IsTablePart(token.tag.name))
              && !(token.EndTag? && (IsCell(token.tag.name) || token.tag.name.Body? || token.tag.name.Html? || token.tag.name.Table?)) ==>
                TokenReachesBody(InCell, token)
    {
      hide Sound;
      hide ZoneFrom;
      hide InScope;
      FlowingRuns(InCell, original, open, active, head, t, rank, next);
      TableOfCell(open);
    }

    // Closes the cell for a token that belongs to the row, the table body or the table.
    method LeaveCell(token: Token) returns (out: Outcome)
      requires Running(mode, originalMode, open, active, headElement, tree, rank, nextId) && mode.InCell?
      requires (token.StartTag? && IsTablePart(token.tag.name)) || (token.EndTag? && (token.tag.name.Table? || IsTableBody(token.tag.name) || token.tag.name.Tr?))
      modifies this
      ensures Handled(token, out, old(mode), old(open), mode, originalMode, open, active, headElement, tree, rank, nextId)
      ensures RegionEffect(token, out, old(mode), old(Snapshot(open, active, tree, nextId)), mode, Snapshot(open, active, tree, nextId))
      ensures out == Reprocess(token) && mode.InRow? && Snapshot(open, active, tree, nextId) == ClosedRegion(old(Snapshot(open, active, tree, nextId)))
      decreases 1, 0, 0, 0
    {
      hide *;
      ghost var s0 := Snapshot(open, active, tree, nextId);
      CellIsInScope(originalMode, open, active, headElement, tree, rank, nextId);
      // One of the two is always in scope, or the token would be ignored.
      var inTd := HasElementInScope({Td}, TableScope);
      var inTh := HasElementInScope({Th}, TableScope);
      assert inTd || inTh;
      var name := if inTd then Td else Th;
      CellEndNeed(name, open);
      CellEndings(InCell, EndTag(Tag(name, map[])), s0);
      CellEndings(InCell, token, s0);
      var simulated := Dispatch(EndTag(Tag(name, map[])));
      HandledRuns(EndTag(Tag(name, map[])), simulated, InCell, s0.open, mode, originalMode, open, active, headElement, tree, rank, nextId);
      RegionWasDone(EndTag(Tag(name, map[])), simulated, InCell, s0, mode, Snapshot(open, active, tree, nextId));
      CellHasEnded(s0.open, token);
      NextMode(token, InCell, s0.open, mode, originalMode, open, active, headElement, tree, rank, nextId);
      if token.StartTag? || token.tag.name.Table? {
        PartLeft(token, InCell, s0, mode, Snapshot(open, active, tree, nextId));
      } else {
        Uncharted(token, Reprocess(token), InCell, s0, mode, Snapshot(open, active, tree, nextId));
      }
      return Reprocess(token);
    }

    static lemma CellIsInScope(original: Mode, open: Stack, active: Entries, head: Option<Element>, t: Tree, rank: map<NodeId, real>, next: NodeId)
      requires Running(InCell, original, open, active, head, t, rank, next)
      ensures InScope(open, {Td}, TableScope) || InScope(open, {Th}, TableScope)
    {
      hide Sound;
      hide ZoneFrom;
      hide InScope;
      hide Anchor;
      BelowAnchor(open);
      CellInScope(open, Td);
      CellInScope(open, Th);
    }

    static lemma CellEndNeed(name: Name, open: Stack)
      requires name == Td || name == Th
      ensures Need(InCell, EndTag(Tag(name, map[])), open) == 0 && IsCell(name)
    {
      hide InScope;
    }

    static lemma CellHasEnded(open0: Stack, token: Token)
      requires (token.StartTag? && IsTablePart(token.tag.name)) || (token.EndTag? && (token.tag.name.Table? || IsTableBody(token.tag.name) || token.tag.name.Tr?))
      ensures Steps(InRow, token) < Steps(InCell, token) && Need(InCell, token, open0) == 2 && Follows(InCell, token, InRow)
    {
      hide InScope;
    }

    method CaptionRules(token: Token) returns (out: Outcome)
      requires Running(mode, originalMode, open, active, headElement, tree, rank, nextId) && mode.InCaption?
      modifies this
      ensures Handled(token, out, old(mode), old(open), mode, originalMode, open, active, headElement, tree, rank, nextId)
      ensures BodyEffect(token, out, old(mode), old(Snapshot(open, active, tree, nextId)), old(quirks), scriptingFlag, old(formElement),
                         mode, Snapshot(open, active, tree, nextId), formElement)
      ensures RegionEffect(token, out, old(mode), old(Snapshot(open, active, tree, nextId)), mode, Snapshot(open, active, tree, nextId))
      ensures FaultIs(token, out, old(mode), old(Snapshot(open, active, tree, nextId)), mode, Snapshot(open, active, tree, nextId))
      ensures token.Comment? ==> out == Done(false) && mode == old(mode) && open == old(open) && active == old(active)
      ensures token.Comment? ==> open != [] && Top(open).id in old(tree) && tree == Grown(old(tree), Top(open).id, old(nextId), CommentNode(token.text))
      decreases Need(mode, token, open), Turns(mode, token), |open|, 7
    {
      hide *;
      ghost var s0, quirks0, form0 := Snapshot(open, active, tree, nextId), quirks, formElement;
      CaptionFacts(token, originalMode, open, active, headElement, tree, rank, nextId);
      PartNeeds(mode, token, open);
      CellEndings(InCaption, token, s0);
      if token.EndTag? && token.tag.name.Caption? {
        var inScope := HasElementInScope({Caption}, TableScope);
        if inScope {
          CloseMarkedRegion(Caption, InTable);
        }
        out := Done(!inScope);
        RegionDone(token, out.ignored, InCaption, s0, mode, Snapshot(open, active, tree, nextId));
        DoneWith(token, out.ignored, InCaption, s0.open, mode, originalMode, open, active, headElement, tree, rank, nextId);
      } else if (token.StartTag? && IsTablePart(token.tag.name)) || (token.EndTag? && token.tag.name.Table?) {
        out := LeaveCaption(token);
      } else if token.EndTag? && (token.tag.name.Body? || token.tag.name.Html? || IsTablePart(token.tag.name)) {
        out := Done(true);
        RegionDone(token, out.ignored, InCaption, s0, mode, Snapshot(open, active, tree, nextId));
        DoneWith(token, out.ignored, InCaption, s0.open, mode, originalMode, open, active, headElement, tree, rank, nextId);
      } else {
        out := BodyRules(token);
        Uncharted(token, out, InCaption, s0, mode, Snapshot(open, active, tree, nextId));
        return;
      }
      EffectFree(token, out, InCaption, s0, quirks0, scriptingFlag, form0, mode, Snapshot(open, active, tree, nextId), formElement);
      HandledNoFault(token, out, InCaption, s0, mode, originalMode, Snapshot(open, active, tree, nextId), headElement, rank);
    }

    static lemma CaptionFacts(token: Token, original: Mode, open: Stack, active: Entries, head: Option<Element>, t: Tree, rank: map<NodeId, real>, next: NodeId)
      requires Running(InCaption, original, open, active, head, t, rank, next)
      ensures Flowing(InCaption, open, active, t, rank, next) && InScope(open, {Caption}, TableScope)
      ensures !(token.StartTag? && IsTablePart(token.tag.name))
              && !(token.EndTag? && (token.tag.name.Caption? || token.tag.name.Body? || token.tag.name.Html? || token.tag.name.Table?)) ==>
                TokenReachesBody(InCaption, token)
    {
      hide Sound;
      hide ZoneFrom;
      hide InScope;
      FlowingRuns(InCaption, original, open, active, head, t, rank, next);
      CaptionInScope(open);
    }

    // Closes the caption for a token that belongs to the table.
    method LeaveCaption(token: Token) returns (out: Outcome)
      requires Running(mode, originalMode, open, active, headElement, tree, rank, nextId) && mode.InCaption?
      requires (token.StartTag? && IsTablePart(token.tag.name)) || (token.EndTag? && token.tag.name.Table?)
      modifies this
      ensures Handled(token, out, old(mode), old(open), mode, originalMode, open, active, headElement, tree, rank, nextId)
      ensures RegionEffect(token, out, old(mode), old(Snapshot(open, active, tree, nextId)), mode, Snapshot(open, active, tree, nextId))
      ensures out == Reprocess(token) && mode.InTable? && Snapshot(open, active, tree, nextId) == ClosedRegion(old(Snapshot(open, active, tree, nextId)))
      decreases 1, 0, 0, 0
    {
      hide *;
      ghost var s0 := Snapshot(open, active, tree, nextId);
      CaptionEndNeed(open);
      CellEndings(InCaption, EndTag(Tag(Caption, map[])), s0);
      var simulated := Dispatch(EndTag(Tag(Caption, map[])));
      HandledRuns(EndTag(Tag(Caption, map[])), simulated, InCaption, s0.open, mode, originalMode, open, active, headElement, tree, rank, nextId);
      RegionWasDone(EndTag(Tag(Caption, map[])), simulated, InCaption, s0, mode, Snapshot(open, active, tree, nextId));
      CaptionHasEnded(s0.open, token);
      if simulated == Done(true) {
        return Done(false);
      }
      NextMode(token, InCaption, s0.open, mode, originalMode, open, active, headElement, tree, rank, nextId);
      PartLeft(token, InCaption, s0, mode, Snapshot(open, active, tree, nextId));
      return Reprocess(token);
    }

    static lemma CaptionEndNeed(open: Stack)
      ensures Need(InCaption, EndTag(Tag(Caption, map[])), open) == 0
      ensures Need(InColumnGroup, EndTag(Tag(Colgroup, map[])), open) == 0
      ensures !IsSelectMode(InCaption) && !IsSelectMode(InColumnGroup)
    {
      hide InScope;
    }

    static lemma CaptionHasEnded(open0: Stack, token: Token)
      requires (token.StartTag? && IsTablePart(token.tag.name)) || (token.EndTag? && token.tag.name.Table?)
      ensures Steps(InTable, token) < Steps(InCaption, token) && Need(InCaption, token, open0) == 2 && Follows(InCaption, token, InTable)
    {
      hide InScope;
    }

    method ColumnGroupRules(token: Token) returns (out: Outcome)
      requires Running(mode, originalMode, open, active, headElement, tree, rank, nextId) && mode.InColumnGroup?
      modifies this
      ensures Handled(token, out, old(mode), old(open), mode, originalMode, open, active, headElement, tree, rank, nextId)
      ensures RegionEffect(token, out, old(mode), old(Snapshot(open, active, tree, nextId)), mode, Snapshot(open, active, tree, nextId))
      ensures token.Comment? ==> out == Done(false) && mode == old(mode) && open == old(open) && active == old(active)
      ensures token.Comment? ==> open != [] && Top(open).id in old(tree) && tree == Grown(old(tree), Top(open).id, old(nextId), CommentNode(token.text))
      decreases Need(mode, token, open), Turns(mode, token), |open|, 7
    {
      hide *;
      ghost var s0 := Snapshot(open, active, tree, nextId);
      ColumnGroupFacts(token, originalMode, open, active, headElement, tree, rank, nextId);
      PartNeeds(mode, token, open);
      ColumnGroupSteps(token, s0);
      ClosedIs(s0);
      if token.StartTag? && IsTablePart(token.tag.name) {
        PartSteps(InColumnGroup, token.tag, s0);
      }
      if token.Character? && IsWhitespace(token.data) {
        CharacterHere(token.data);
        out := Done(false);
      } else if token.Comment? {
        CommentHere(token.text);
        out := Done(false);
      } else if token.Doctype? {
        out := Done(true);
      } else if token.StartTag? && token.tag.name.Html? {
        out := Done(false);
      } else if token.StartTag? && token.tag.name.Col? {
        var _ := VoidHere(token.tag);
        out := Done(false);
      } else if token.EndTag? {
        // The column group is never the root.
        if token.tag.name.Colgroup? && open[|open| - 1] != open[0] {
          CloseRegion(InTable);
          out := Done(false);
        } else {
          out := Done(token.tag.name.Colgroup? || token.tag.name.Col?);
        }
      } else {
        out := LeaveColumnGroup(token);
        return;
      }
      RegionDone(token, out.ignored, InColumnGroup, s0, mode, Snapshot(open, active, tree, nextId));
      DoneWith(token, out.ignored, InColumnGroup, s0.open, mode, originalMode, open, active, headElement, tree, rank, nextId);
    }

    static lemma ColumnGroupSteps(token: Token, s: Snapshot)
      ensures HasRegionStep(InColumnGroup, token, s.open) <==>
                (token.StartTag? && IsTablePart(token.tag.name)) || (token.EndTag? && token.tag.name.Colgroup?)
      ensures token.EndTag? && token.tag.name.Colgroup? ==>
                RegionStep(InColumnGroup, token, s) == Closed(s) && RegionMode(InColumnGroup, token, s) == InTable
      ensures token.StartTag? && token.tag.name.Html? ==> !IsTablePart(token.tag.name)
      ensures token.StartTag? && token.tag.name.Col? ==> IsTablePart(token.tag.name)
    {
      hide Closed;
      hide PartStep;
      hide InScope;
    }

    static lemma ColumnGroupFacts(token: Token, original: Mode, open: Stack, active: Entries, head: Option<Element>, t: Tree, rank: map<NodeId, real>, next: NodeId)
      requires Running(InColumnGroup, original, open, active, head, t, rank, next)
      ensures open != [] && open[|open| - 1] != open[0] && ZoneOf(open[..|open| - 1]) == Home(InTable) && !IsQuiet(InTable)
      ensures token.StartTag? && token.tag.name.Col? ==> !TakesMarker(token.tag.name)
    {
      hide Lineage;
      hide Balanced;
      hide Grounded;
      SoundIsDistinct(open, active, t, rank, next);
      hide Sound;
      hide ZoneFrom;
      ZoneBelowBody(open);
      TableShape(Below(open));
    }

    method LeaveColumnGroup(token: Token) returns (out: Outcome)
      requires Running(mode, originalMode, open, active, headElement, tree, rank, nextId) && mode.InColumnGroup?
      requires !token.EndTag? && !(token.StartTag? && token.tag.name.Col?)
      modifies this
      ensures Handled(token, out, old(mode), old(open), mode, originalMode, open, active, headElement, tree, rank, nextId)
      ensures RegionEffect(token, out, old(mode), old(Snapshot(open, active, tree, nextId)), mode, Snapshot(open, active, tree, nextId))
      ensures out == Reprocess(token) && mode.InTable? && Snapshot(open, active, tree, nextId) == Closed(old(Snapshot(open, active, tree, nextId)))
      decreases 1, 0, 0, 0
    {
      hide *;
      ghost var s0 := Snapshot(open, active, tree, nextId);
      CaptionEndNeed(open);
      ColumnGroupSteps(EndTag(Tag(Colgroup, map[])), s0);
      ColumnGroupSteps(token, s0);
      var simulated := Dispatch(EndTag(Tag(Colgroup, map[])));
      HandledRuns(EndTag(Tag(Colgroup, map[])), simulated, InColumnGroup, s0.open, mode, originalMode, open, active, headElement, tree, rank, nextId);
      RegionWasDone(EndTag(Tag(Colgroup, map[])), simulated, InColumnGroup, s0, mode, Snapshot(open, active, tree, nextId));
      ColumnGroupHasEnded(s0.open, token);
      NextMode(token, InColumnGroup, s0.open, mode, originalMode, open, active, headElement, tree, rank, nextId);
      if token.StartTag? && IsTablePart(token.tag.name) {
        PartSteps(InColumnGroup, token.tag, s0);
        PartNext(token.tag, InColumnGroup, s0, mode, Snapshot(open, active, tree, nextId));
      } else {
        Uncharted(token, Reprocess(token), InColumnGroup, s0, mode, Snapshot(open, active, tree, nextId));
      }
      return Reprocess(token);
    }

    static lemma ColumnGroupHasEnded(open0: Stack, token: Token)
      requires !token.EndTag? && !(token.StartTag? && token.tag.name.Col?)
      ensures Steps(InTable, token) < Steps(InColumnGroup, token) && Need(InColumnGroup, token, open0) == 2 && Follows(InColumnGroup, token, InTable)
      ensures IsTableMode(InColumnGroup)
    {
      hide InScope;
    }

    // ---------------------------------------------------------------------------------------------
    // In a select

    method SelectRules(token: Token) returns (out: Outcome)
      requires Running(mode, originalMode, open, active, headElement, tree, rank, nextId) && IsSelectMode(mode)
      modifies this
      ensures Handled(token, out, old(mode), old(open), mode, originalMode, open, active, headElement, tree, rank, nextId)
      ensures RegionEffect(token, out, old(mode), old(Snapshot(open, active, tree, nextId)), mode, Snapshot(open, active, tree, nextId))
      ensures token.Comment? ==> out == Done(false) && mode == old(mode) && open == old(open) && active == old(active)
      ensures token.Comment? ==> open != [] && Top(open).id in old(tree) && tree == Grown(old(tree), Top(open).id, old(nextId), CommentNode(token.text))
      ensures token.Character? && token.data != 0 as char ==> open != [] && TextAt(tree, Top(open).id) == TextAt(old(tree), Top(open).id) + [token.data]
      decreases Need(mode, token, open), Turns(mode, token), |open|, 6
    {
      hide *;
      ghost var mode0, s0 := mode, Snapshot(open, active, tree, nextId);
      if !token.StartTag? && !token.EndTag? {
        OtherTokens(mode, token, s0);
      }
      SelectFacts(mode, originalMode, open, active, headElement, tree, rank, nextId);
      match token {
        case StartTag(tag) =>
          out := SelectStartTag(tag);
          return;
        case EndTag(tag) =>
          out := SelectEndTag(tag);
          return;
        case EndOfFile =>
          out := StopHere();
          Uncharted(token, out, mode0, s0, mode, Snapshot(open, active, tree, nextId));
          return;
        case Character(data) =>
          out := Done(data == 0 as char);
          if data != 0 as char {
            CharacterHere(data);
          }
        case Comment(text) =>
          CommentHere(text);
          out := Done(false);
        case Doctype(_) =>
          out := Done(true);
      }
      Uncharted(token, out, mode0, s0, mode, Snapshot(open, active, tree, nextId));
      DoneWith(token, out.ignored, mode0, s0.open, mode, originalMode, open, active, headElement, tree, rank, nextId);
    }

    // What the tags of a select, of options and of optgroups come to.
    static lemma SelectSteps(mode: Mode, token: Token, s: Snapshot)
      requires IsSelectMode(mode) && (token.StartTag? || token.EndTag?)
      ensures var n := token.tag.name;
              && (HasRegionStep(mode, token, s.open) <==> n.OptionName? || n.Optgroup? || n.Select?)
              && (n.Select? ==> RegionStep(mode, token, s) == SelectClosed(s) && RegionMode(mode, token, s) == FlowMode(SelectClosed(s).open))
              && (n.OptionName? || n.Optgroup? ==>
                    && RegionMode(mode, token, s) == mode
                    && RegionStep(mode, token, s) ==
                       if token.StartTag? then Opened(Snapshot(OptionBase(s.open, n), s.active, s.tree, s.next), token.tag)
                       else Snapshot(if n.OptionName? then WithoutOption(s.open) else WithoutOptgroup(s.open), s.active, s.tree, s.next))
    {
      hide Opened;
      hide SelectClosed;
      hide FlowMode;
      hide InScope;
    }

    // The select is on the stack, with nothing but optgroups and options above it.
    static lemma SelectFacts(mode: Mode, original: Mode, open: Stack, active: Entries, head: Option<Element>, t: Tree, rank: map<NodeId, real>, next: NodeId)
      requires Running(mode, original, open, active, head, t, rank, next) && IsSelectMode(mode)
      ensures |open| > 2 && TakesText(mode) && !mode.Text? && !mode.InTableText? && !IsQuiet(mode) && Home(mode) == SelectZone == ZoneOf(open)
      ensures 0 <= Topmost(open, {Select}) < |open| && IsFlow(ZoneOf(open[..Topmost(open, {Select})]))
      ensures Sound(open, active, t, rank, next)
    {
      hide Sound;
      hide ZoneOf;
      SelectBottom(open);
    }

    static lemma {:induction false} SelectBottom(open: Stack)
      requires ZoneOf(open) == SelectZone
      ensures |open| > 2 && 0 <= Topmost(open, {Select}) < |open| && IsFlow(ZoneOf(open[..Topmost(open, {Select})]))
      ensures forall i :: Topmost(open, {Select}) < i < |open| ==> open[i].name.Optgroup? || open[i].name.OptionName?
    {
      if Top(open).name.Select? {
        AnchorOfFlow(Below(open));
      } else {
        SelectBottom(Below(open));
        var k := Topmost(open, {Select});
        assert Below(open)[..k] == open[..k];
      }
    }

    // An end tag the rules make up for an element that is open in the select.
    method EndInSelect(name: Name)
      requires Running(mode, originalMode, open, active, headElement, tree, rank, nextId) && IsSelectMode(mode)
      requires name.OptionName? || name.Optgroup? || name.Select?
      modifies this
      ensures Running(mode, originalMode, open, active, headElement, tree, rank, nextId)
      ensures if name.Select? then IsBodyMode(mode) && mode == FlowMode(open) else mode == old(mode)
      ensures name.Select? ==> Snapshot(open, active, tree, nextId) == SelectClosed(old(Snapshot(open, active, tree, nextId)))
      ensures name.OptionName? ==> open == WithoutOption(old(open)) && active == old(active) && tree == old(tree) && nextId == old(nextId)
      ensures name.Optgroup? ==> open == WithoutOptgroup(old(open)) && active == old(active) && tree == old(tree) && nextId == old(nextId)
      decreases if name.Optgroup? then 1 else 0, Turns(mode, EndTag(Tag(name, map[]))), |open|, 10
    {
      hide *;
      ghost var mode0, s0 := mode, Snapshot(open, active, tree, nextId);
      SelectEndNeed(mode, name, open);
      SelectSteps(mode, EndTag(Tag(name, map[])), s0);
      SelectEndsInFlow(mode, originalMode, open, active, headElement, tree, rank, nextId);
      var simulated := Dispatch(EndTag(Tag(name, map[])));
      HandledRuns(EndTag(Tag(name, map[])), simulated, mode0, s0.open, mode, originalMode, open, active, headElement, tree, rank, nextId);
      RegionWasDone(EndTag(Tag(name, map[])), simulated, mode0, s0, mode, Snapshot(open, active, tree, nextId));
    }

    static lemma SelectEndsInFlow(mode: Mode, original: Mode, open: Stack, active: Entries, head: Option<Element>, t: Tree, rank: map<NodeId, real>, next: NodeId)
      requires Running(mode, original, open, active, head, t, rank, next) && IsSelectMode(mode)
      ensures IsBodyMode(FlowMode(SelectClosed(Snapshot(open, active, t, next)).open))
    {
      hide ZoneOf;
    }

    static lemma SelectEndNeed(mode: Mode, name: Name, open: Stack)
      requires IsSelectMode(mode) && (name.OptionName? || name.Optgroup? || name.Select?)
      ensures Need(mode, EndTag(Tag(name, map[])), open) == if name.Optgroup? then 1 else 0
    {
      hide InScope;
    }

    method SelectStartTag(tag: Tag) returns (out: Outcome)
      requires Running(mode, originalMode, open, active, headElement, tree, rank, nextId) && IsSelectMode(mode)
      modifies this
      ensures Handled(StartTag(tag), out, old(mode), old(open), mode, originalMode, open, active, headElement, tree, rank, nextId)
      ensures RegionEffect(StartTag(tag), out, old(mode), old(Snapshot(open, active, tree, nextId)), mode, Snapshot(open, active, tree, nextId))
      decreases Need(mode, StartTag(tag), open), Turns(mode, StartTag(tag)), |open|, 5
    {
      hide *;
      ghost var mode0, s0 := mode, Snapshot(open, active, tree, nextId);
      var n := tag.name;
      SelectFacts(mode, originalMode, open, active, headElement, tree, rank, nextId);
      SelectStartFacts(mode, tag, open);
      SelectSteps(mode, StartTag(tag), s0);
      out := Done(false);
      if n.Html? {
      } else if n.OptionName? || n.Optgroup? {
        OpenOption(tag);
      } else if n.Select? {
        EndInSelect(Select);
      } else if n.Input? || n.Keygen? || n.Textarea? {
        out := LeaveSelect(StartTag(tag));
        Uncharted(StartTag(tag), out, mode0, s0, mode, Snapshot(open, active, tree, nextId));
        return;
      } else if n.Script? {
        HeadContentHere(tag);
      } else {
        out := Done(true);
      }
      RegionDone(StartTag(tag), out.ignored, mode0, s0, mode, Snapshot(open, active, tree, nextId));
      DoneWith(StartTag(tag), out.ignored, mode0, s0.open, mode, originalMode, open, active, headElement, tree, rank, nextId);
    }

    static lemma SelectStartFacts(mode: Mode, tag: Tag, open: Stack)
      requires IsSelectMode(mode)
      ensures Need(mode, StartTag(tag), open) == 2 && (tag.name.Script? ==> IsHeadContent(tag.name))
      ensures tag.name.Input? || tag.name.Keygen? || tag.name.Textarea? ==> !MayFail(StartTag(tag))
    {
      hide InScope;
    }

    // An option ends an open option, an optgroup ends an open option and an open optgroup.
    method OpenOption(tag: Tag)
      requires Running(mode, originalMode, open, active, headElement, tree, rank, nextId) && IsSelectMode(mode)
      requires tag.name.OptionName? || tag.name.Optgroup?
      modifies this
      ensures Running(mode, originalMode, open, active, headElement, tree, rank, nextId) && mode == old(mode)
      ensures Snapshot(open, active, tree, nextId) == Opened(Snapshot(OptionBase(old(open), tag.name), old(active), old(tree), old(nextId)), tag)
      decreases 2, 0, 0, 0
    {
      hide *;
      SelectFacts(mode, originalMode, open, active, headElement, tree, rank, nextId);
      OptionClosed(open);
      OptionBaseIs(open, tag.name);
      if open[|open| - 1].name.OptionName? {
        EndInSelect(OptionName);
        SelectFacts(mode, originalMode, open, active, headElement, tree, rank, nextId);
      }
      if tag.name.Optgroup? && open[|open| - 1].name.Optgroup? {
        EndInSelect(Optgroup);
        SelectFacts(mode, originalMode, open, active, headElement, tree, rank, nextId);
      }
      OptionOpens(open, nextId, tag);
      OpenRegion(tag, mode);
    }

    static lemma OptionBaseIs(open: Stack, n: Name)
      requires open != []
      ensures var rest := WithoutOption(open);
              OptionBase(open, n) == if n.Optgroup? && rest != [] && rest[|rest| - 1].name.Optgroup? then WithoutOptgroup(rest) else rest
    {
    }

    static lemma OptionOpens(open: Stack, next: NodeId, tag: Tag)
      requires ZoneOf(open) == SelectZone && (tag.name.OptionName? || tag.name.Optgroup?)
      ensures ZoneOf(open + [NewElement(next, tag)]) == SelectZone && !TakesMarker(tag.name)
    {
      ZonePush(open, NewElement(next, tag));
    }

    // Closes the select for a token that does not belong in it.  The select is always found, whatever the
    // scope test answers.
    method LeaveSelect(token: Token) returns (out: Outcome)
      requires Running(mode, originalMode, open, active, headElement, tree, rank, nextId) && IsSelectMode(mode)
      requires Need(mode, token, open) == 2 && !(token.EndTag? && token.tag.name.Html?)
      requires !MayFail(token)
      modifies this
      ensures Handled(token, out, old(mode), old(open), mode, originalMode, open, active, headElement, tree, rank, nextId)
      ensures out == Reprocess(token) && mode == FlowMode(open) && Snapshot(open, active, tree, nextId) == SelectClosed(old(Snapshot(open, active, tree, nextId)))
      decreases 2, 0, 0, 0
    {
      hide *;
      ghost var mode0, open0 := mode, open;
      SelectFacts(mode, originalMode, open, active, headElement, tree, rank, nextId);
      var found := HasElementInSelectScope(Select);
      assert found by { assert open[Topmost(open, {Select})].name in {Select}; }
      EndInSelect(Select);
      FromSelect(mode0, mode, token);
      NextMode(token, mode0, open0, mode, originalMode, open, active, headElement, tree, rank, nextId);
      return Reprocess(token);
    }

    static lemma FromSelect(mode0: Mode, mode: Mode, token: Token)
      requires IsSelectMode(mode0) && IsBodyMode(mode) && !(token.EndTag? && token.tag.name.Html?)
      requires !MayFail(token)
      ensures Steps(mode, token) < Steps(mode0, token) && Follows(mode0, token, mode)
    {
    }

    method SelectEndTag(tag: Tag) returns (out: Outcome)
      requires Running(mode, originalMode, open, active, headElement, tree, rank, nextId) && IsSelectMode(mode)
      modifies this
      ensures Handled(EndTag(tag), out, old(mode), old(open), mode, originalMode, open, active, headElement, tree, rank, nextId)
      ensures RegionEffect(EndTag(tag), out, old(mode), old(Snapshot(open, active, tree, nextId)), mode, Snapshot(open, active, tree, nextId))
      decreases Need(mode, EndTag(tag), open), Turns(mode, EndTag(tag)), |open|, 5
    {
      hide *;
      ghost var mode0, s0 := mode, Snapshot(open, active, tree, nextId);
      var n := tag.name;
      SelectFacts(mode, originalMode, open, active, headElement, tree, rank, nextId);
      SelectSteps(mode, EndTag(tag), s0);
      out := Done(false);
      if n.OptionName? {
        OptionClosed(open);
        var isOption := open[|open| - 1].name.OptionName?;
        if isOption {
          PopOption();
        }
        out := Done(!isOption);
      } else if n.Optgroup? {
        SelectEndTurns(mode, tag, open);
        var ignored := EndOptgroup();
        out := Done(ignored);
      } else if n.Select? {
        CloseSelect();
      }
      RegionDone(EndTag(tag), out.ignored, mode0, s0, mode, Snapshot(open, active, tree, nextId));
      DoneWith(EndTag(tag), out.ignored, mode0, s0.open, mode, originalMode, open, active, headElement, tree, rank, nextId);
    }

    static lemma OptionClosed(open: Stack)
      requires open != []
      ensures WithoutOption(open) == if open[|open| - 1].name.OptionName? then open[..|open| - 1] else open
    {
    }

    static lemma OptgroupClosed(open: Stack)
      requires |open| > 2
      ensures WithoutOptgroup(open) ==
              if open[|open| - 1].name.OptionName? && open[|open| - 2].name.Optgroup? then open[..|open| - 1][..|open| - 2]
              else if open[|open| - 1].name.Optgroup? then open[..|open| - 1]
              else open
    {
    }

    static lemma SelectEndTurns(mode: Mode, tag: Tag, open: Stack)
      requires IsSelectMode(mode) && tag.name.Optgroup?
      ensures Need(mode, EndTag(tag), open) == 1 && Turns(mode, EndTag(tag)) > 0
    {
      hide InScope;
    }

    method PopOption()
      requires Running(mode, originalMode, open, active, headElement, tree, rank, nextId) && IsSelectMode(mode)
      requires open != [] && (open[|open| - 1].name.OptionName? || open[|open| - 1].name.Optgroup?)
      modifies `mode, `originalMode, `open
      ensures Running(mode, originalMode, open, active, headElement, tree, rank, nextId) && mode == old(mode)
      ensures open == old(open)[..|old(open)| - 1]
    {
      hide *;
      OptionCloses(mode, originalMode, open, active, headElement, tree, rank, nextId);
      CloseRegion(mode);
    }

    static lemma OptionCloses(mode: Mode, original: Mode, open: Stack, active: Entries, head: Option<Element>, t: Tree, rank: map<NodeId, real>, next: NodeId)
      requires Running(mode, original, open, active, head, t, rank, next) && IsSelectMode(mode)
      requires open != [] && (open[|open| - 1].name.OptionName? || open[|open| - 1].name.Optgroup?)
      ensures !mode.Text? && !mode.InTableText? && !IsQuiet(mode) && ZoneOf(open[..|open| - 1]) == Home(mode)
    {
      hide Sound;
    }

    // The end tag of an optgroup also ends an option that is directly in one.
    method EndOptgroup() returns (ignored: bool)
      requires Running(mode, originalMode, open, active, headElement, tree, rank, nextId) && IsSelectMode(mode)
      modifies this
      ensures Running(mode, originalMode, open, active, headElement, tree, rank, nextId) && mode == old(mode)
      ensures open == WithoutOptgroup(old(open)) && active == old(active) && tree == old(tree) && nextId == old(nextId)
      decreases 1, 0, 0, 0
    {
      hide *;
      SelectFacts(mode, originalMode, open, active, headElement, tree, rank, nextId);
      OptgroupClosed(open);
      OptionClosed(open);
      if open[|open| - 1].name.OptionName? && open[|open| - 2].name.Optgroup? {
        EndInSelect(OptionName);
        SelectFacts(mode, originalMode, open, active, headElement, tree, rank, nextId);
      }
      ignored := !open[|open| - 1].name.Optgroup?;
      if !ignored {
        PopOption();
      }
    }

    method CloseSelect()
      requires Running(mode, originalMode, open, active, headElement, tree, rank, nextId) && IsSelectMode(mode)
      modifies `mode, `open
      ensures IsBodyMode(mode) && Running(mode, originalMode, open, active, headElement, tree, rank, nextId)
      ensures Snapshot(open, active, tree, nextId) == SelectClosed(old(Snapshot(open, active, tree, nextId))) && mode == FlowMode(open)
    {
      hide *;
      SelectClosedIs(Snapshot(open, active, tree, nextId));
      SelectFacts(mode, originalMode, open, active, headElement, tree, rank, nextId);
      var found := HasElementInSelectScope(Select);
      assert found by { assert open[Topmost(open, {Select})].name in {Select}; }
      CutSound(open, active, tree, rank, nextId, Topmost(open, {Select}));
      PopThrough({Select});
      ResetInsertionMode();
      FlowIf(mode, open, active, tree, rank, nextId);
      FlowRuns(mode, originalMode, open, active, headElement, tree, rank, nextId);
    }

    static lemma SelectClosedIs(s: Snapshot)
      ensures Topmost(s.open, {Select}) >= 0 ==> SelectClosed(s) == Snapshot(s.open[..Topmost(s.open, {Select})], s.active, s.tree, s.next)
    {
    }

    // Tokens that end a select in a table.
    static predicate EndsSelectInTable(n: Name) {
      n.Caption? || n.Table? || IsTableBody(n) || n.Tr? || IsCell(n)
    }

    method SelectInTableRules(token: Token) returns (out: Outcome)
      requires Running(mode, originalMode, open, active, headElement, tree, rank, nextId) && mode.InSelectInTable?
      modifies this
      ensures Handled(token, out, old(mode), old(open), mode, originalMode, open, active, headElement, tree, rank, nextId)
      ensures RegionEffect(token, out, old(mode), old(Snapshot(open, active, tree, nextId)), mode, Snapshot(open, active, tree, nextId))
      ensures token.Comment? ==> out == Done(false) && mode == old(mode) && open == old(open) && active == old(active)
      ensures token.Comment? ==> open != [] && Top(open).id in old(tree) && tree == Grown(old(tree), Top(open).id, old(nextId), CommentNode(token.text))
      ensures token.StartTag? && EndsSelectInTable(token.tag.name) ==>
                out == Reprocess(token) && mode == FlowMode(open) && Snapshot(open, active, tree, nextId) == SelectClosed(old(Snapshot(open, active, tree, nextId)))
      decreases Need(mode, token, open), Turns(mode, token), |open|, 7
    {
      hide *;
      ghost var s0 := Snapshot(open, active, tree, nextId);
      SelectInTableFacts(token, s0);
      if token.StartTag? && EndsSelectInTable(token.tag.name) {
        out := LeaveSelect(token);
        Uncharted(token, out, InSelectInTable, s0, mode, Snapshot(open, active, tree, nextId));
      } else if token.EndTag? && EndsSelectInTable(token.tag.name) {
        var inScope := HasElementInScope({token.tag.name}, TableScope);
        if inScope {
          out := LeaveSelect(token);
        } else {
          out := Done(true);
          DoneWith(token, true, InSelectInTable, s0.open, mode, originalMode, open, active, headElement, tree, rank, nextId);
        }
        Uncharted(token, out, InSelectInTable, s0, mode, Snapshot(open, active, tree, nextId));
      } else {
        out := SelectRules(token);
      }
    }

    static lemma SelectInTableFacts(token: Token, s: Snapshot)
      ensures IsSelectMode(InSelectInTable)
      ensures (token.StartTag? || token.EndTag?) && EndsSelectInTable(token.tag.name) ==>
                && Need(InSelectInTable, token, s.open) == 2 && Turns(InSelectInTable, token) > 0 && !token.tag.name.Html? && !MayFail(token)
                && !HasRegionStep(InSelectInTable, token, s.open)
    {
      hide InScope;
    }

    // ---------------------------------------------------------------------------------------------
    // The dispatcher

    // All elements are HTML elements, so no token is processed by the rules for foreign content.
    method Dispatch(token: Token) returns (out: Outcome)
      requires Running(mode, originalMode, open, active, headElement, tree, rank, nextId)
      modifies this
      ensures Handled(token, out, old(mode), old(open), mode, originalMode, open, active, headElement, tree, rank, nextId) && !out.Reprocess?
      ensures FaultIs(token, out, old(mode), old(Snapshot(open, active, tree, nextId)), mode, Snapshot(open, active, tree, nextId))
      ensures RegionEffect(token, out, old(mode), old(Snapshot(open, active, tree, nextId)), mode, Snapshot(open, active, tree, nextId))
      ensures IsBodyMode(old(mode)) && !(old(ignoreLineFeed) && token == Character('\n')) ==>
                BodyEffect(token, out, old(mode), old(Snapshot(open, active, tree, nextId)), old(quirks), scriptingFlag, old(formElement),
                           mode, Snapshot(open, active, tree, nextId), formElement)
      ensures token.Comment? && !old(mode).Text? && !old(mode).InTableText? ==>
                && out == Done(false) && mode == old(mode) && open == old(open) && active == old(active)
                && CommentPlace(mode, open) in old(tree) && tree == Grown(old(tree), CommentPlace(mode, open), old(nextId), CommentNode(token.text))
      decreases Need(mode, token, open), Turns(mode, token), |open|, 9
    {
      hide *;
      ghost var mode0, s0, quirks0, form0 := mode, Snapshot(open, active, tree, nextId), quirks, formElement;
      out := ApplyTheRules(token);
      if out.Reprocess? {
        var again := out.token;
        ghost var mode1, s1, quirks1, form1 := mode, Snapshot(open, active, tree, nextId), quirks, formElement;
        HandledMeans(token, out, mode0, s0.open, mode, originalMode, open, active, headElement, tree, rank, nextId);
        out := Dispatch(again);
        HandledFails(again, out, mode1, s1.open, mode, originalMode, open, active, headElement, tree, rank, nextId);
        HandledAgain(token, out, mode0, s0.open, again, mode1, s1.open, mode, originalMode, open, active, headElement, tree, rank, nextId);
        FaultLater(token, mode0, s0, again, mode1, s1, out, mode, Snapshot(open, active, tree, nextId));
        RegionLater(token, mode0, s0, again, mode1, s1, out, mode, Snapshot(open, active, tree, nextId));
        if IsBodyMode(mode0) && !(old(ignoreLineFeed) && token == Character('\n')) {
          if HasStep(mode0, token) {
            StepInBody(token, mode0, s0, quirks0, scriptingFlag, form0, again, mode1, s1, form1);
            EffectLater(token, mode0, s0, quirks0, scriptingFlag, form0, again, mode1, s1, quirks1, form1,
                        out, mode, Snapshot(open, active, tree, nextId), formElement);
          } else {
            EffectFree(token, out, mode0, s0, quirks0, scriptingFlag, form0, mode, Snapshot(open, active, tree, nextId), formElement);
          }
        }
      }
    }

    // Tokens that are processed again in a body stay in it, and are no characters.
    static lemma StepInBody(token: Token, mode0: Mode, s0: Snapshot, quirks: bool, scripting: bool, form0: Option<FormElement>,
                            again: Token, mode: Mode, s: Snapshot, form: Option<FormElement>)
      requires BodyEffect(token, Reprocess(again), mode0, s0, quirks, scripting, form0, mode, s, form) && HasStep(mode0, token)
      ensures mode == mode0 && !again.Character?
    {
      hide BodyStep;
      hide HasStep;
      hide FormAfter;
      hide ModeAfter;
      hide Ignores;
    }

    static lemma HandledMeans(token: Token, out: Outcome, mode0: Mode, open0: Stack, mode: Mode, original: Mode, open: Stack, active: Entries, head: Option<Element>,
                              t: Tree, rank: map<NodeId, real>, next: NodeId)
      requires Handled(token, out, mode0, open0, mode, original, open, active, head, t, rank, next) && out.Reprocess?
      ensures Running(mode, original, open, active, head, t, rank, next) && Onward(mode0, token, open0, mode) && Again(out.token, token)
      ensures var need, need0 := Need(mode, out.token, open), Need(mode0, token, open0);
              var turns, turns0 := Turns(mode, out.token), Turns(mode0, token);
              need < need0 || (need == need0 && (turns < turns0 || (turns == turns0 && |open| < |open0|)))
    {
      hide Running;
      hide Sound;
      hide Need;
      hide Turns;
    }

    // A line feed right after the start tag of a pre, listing or textarea is dropped.
    method ApplyTheRules(token: Token) returns (out: Outcome)
      requires Running(mode, originalMode, open, active, headElement, tree, rank, nextId)
      modifies this
      ensures Handled(token, out, old(mode), old(open), mode, originalMode, open, active, headElement, tree, rank, nextId)
      ensures FaultIs(token, out, old(mode), old(Snapshot(open, active, tree, nextId)), mode, Snapshot(open, active, tree, nextId))
      ensures RegionEffect(token, out, old(mode), old(Snapshot(open, active, tree, nextId)), mode, Snapshot(open, active, tree, nextId))
      ensures IsBodyMode(old(mode)) && !(old(ignoreLineFeed) && token == Character('\n')) ==>
                BodyEffect(token, out, old(mode), old(Snapshot(open, active, tree, nextId)), old(quirks), scriptingFlag, old(formElement),
                           mode, Snapshot(open, active, tree, nextId), formElement)
      ensures token.Comment? && !old(mode).Text? && !old(mode).InTableText? ==>
                && out == Done(false) && mode == old(mode) && open == old(open) && active == old(active)
                && CommentPlace(mode, open) in old(tree) && tree == Grown(old(tree), CommentPlace(mode, open), old(nextId), CommentNode(token.text))
      decreases Need(mode, token, open), Turns(mode, token), |open|, 8
    {
      hide *;
      ghost var mode0, s0 := mode, Snapshot(open, active, tree, nextId);
      if ignoreLineFeed {
        ignoreLineFeed := false;
        if token == Character('\n') {
          OtherTokens(mode, token, s0);
          Uncharted(token, Done(true), mode, s0, mode, s0);
          NoFault(token, Done(true), mode, s0, mode, s0);
          DoneWith(token, true, mode, open, mode, originalMode, open, active, headElement, tree, rank, nextId);
          return Done(true);
        }
      }
      CommentPlaceIs(mode, open);
      ModesOf(mode, originalMode, open, active, headElement, tree, rank, nextId);
      ModesWithout(mode, token, s0);
      match mode {
        case Initial => out := InitialRules(token);
        case BeforeHtml => out := BeforeHtmlRules(token);
        case BeforeHead => out := BeforeHeadRules(token);
        case InHead => out := HeadRules(token);
        case InHeadNoscript => out := NoscriptRules(token);
        case AfterHead => out := AfterHeadRules(token);
        case InBody => out := BodyRules(token);
        case Text => out := TextRules(token);
        case InTable => out := TableRules(token);
        case InTableText => out := TableTextRules(token);
        case InCaption => out := CaptionRules(token);
        case InColumnGroup => out := ColumnGroupRules(token);
        case InTableBody => out := TableBodyRules(token);
        case InRow => out := RowRules(token);
        case InCell => out := CellRules(token);
        case InSelect => out := SelectRules(token);
        case InSelectInTable => out := SelectInTableRules(token);
        case AfterBody | AfterAfterBody => out := AfterBodyRules(token);
        case InFrameset | AfterFrameset | AfterAfterFrameset => out := FramesetRules(token);
      }
      if HasNoRegionSteps(mode0) {
        Uncharted(token, out, mode0, s0, mode, Snapshot(open, active, tree, nextId));
      }
      if !MayFailIn(mode0, token) {
        HandledNoFault(token, out, mode0, s0, mode, originalMode, Snapshot(open, active, tree, nextId), headElement, rank);
      }
    }

    static predicate HasNoRegionSteps(mode: Mode) {
      mode.Initial? || mode.BeforeHtml? || mode.Text? || mode.InTableText? || mode.InBody? || mode.AfterBody? || mode.AfterAfterBody?
    }

    // Modes without effects that `RegionStep` gives, and modes in which nothing can fail.
    static lemma ModesWithout(mode: Mode, token: Token, s: Snapshot)
      ensures HasNoRegionSteps(mode) <==>
                mode.Initial? || mode.BeforeHtml? || mode.Text? || mode.InTableText? || mode.InBody? || mode.AfterBody? || mode.AfterAfterBody?
      ensures HasNoRegionSteps(mode) ==> !HasRegionStep(mode, token, s.open)
      ensures MayFailIn(mode, token) ==>
                || mode.Initial? || mode.BeforeHtml? || mode.BeforeHead? || mode.InHead? || mode.InHeadNoscript? || mode.AfterHead?
                || mode.InBody? || mode.InCell? || mode.InCaption? || mode.AfterBody? || mode.AfterAfterBody?
    {
      hide InScope;
    }

    static lemma CommentPlaceIs(mode: Mode, open: Stack)
      ensures mode.Initial? || mode.BeforeHtml? || mode.AfterAfterBody? || mode.AfterAfterFrameset? ==> CommentPlace(mode, open) == DOCUMENT
      ensures !(mode.Initial? || mode.BeforeHtml? || mode.AfterAfterBody? || mode.AfterAfterFrameset?) && open != [] ==>
                CommentPlace(mode, open) == Top(open).id
    {
    }

    static lemma ModesOf(mode: Mode, original: Mode, open: Stack, active: Entries, head: Option<Element>, t: Tree, rank: map<NodeId, real>, next: NodeId)
      requires Running(mode, original, open, active, head, t, rank, next)
      ensures mode.InBody? ==> Flowing(mode, open, active, t, rank, next) && forall token :: TokenReachesBody(mode, token)
      ensures mode.InTable? ==> IsRowMode(mode) && forall token :: ReachesTable(mode, token)
      ensures mode.InSelect? ==> IsSelectMode(mode)
      ensures IsBodyMode(mode) ==> mode.InBody? || mode.InCell? || mode.InCaption?
    {
      FlowingRuns(mode, original, open, active, head, t, rank, next);
      hide Running;
      hide Flowing;
    }

    /**
     Processes a token.  From every state between tokens this ends in such a state again, and with the end
     of the file in one without open elements.  The token fails exactly if `FaultOf` says so, and otherwise
     does what `BodyStep` says in a body, a cell or a caption, and what `RegionStep` says elsewhere.
     */
    method WriteElement(token: Token) returns (out: Outcome)
      requires Running(mode, originalMode, open, active, headElement, tree, rank, nextId)
      modifies this
      ensures !out.Reprocess? && (out.Failed? ==> MayFail(token))
      ensures FaultOf(old(mode), token, old(Snapshot(open, active, tree, nextId))) == if out.Failed? then Some(out.fault) else None
      ensures token.Comment? && !old(mode).Text? && !old(mode).InTableText? ==>
                && out == Done(false) && mode == old(mode) && open == old(open) && active == old(active)
                && CommentPlace(mode, open) in old(tree) && tree == Grown(old(tree), CommentPlace(mode, open), old(nextId), CommentNode(token.text))
      ensures IsBodyMode(old(mode)) && !(old(ignoreLineFeed) && token == Character('\n')) ==>
                BodyEffect(token, out, old(mode), old(Snapshot(open, active, tree, nextId)), old(quirks), scriptingFlag, old(formElement),
                           mode, Snapshot(open, active, tree, nextId), formElement)
      ensures RegionEffect(token, out, old(mode), old(Snapshot(open, active, tree, nextId)), mode, Snapshot(open, active, tree, nextId))
      ensures token.EndOfFile? ==> out.Done? && open == [] && Sound(open, active, tree, rank, nextId)
      ensures !token.EndOfFile? ==> Running(mode, originalMode, open, active, headElement, tree, rank, nextId)
    {
      hide *;
      ghost var mode0, s0 := mode, Snapshot(open, active, tree, nextId);
      out := Dispatch(token);
      HandledAtLast(token, out, mode0, s0.open, mode, originalMode, open, active, headElement, tree, rank, nextId);
      FaultIsOf(token, out, mode0, s0, mode, Snapshot(open, active, tree, nextId));
    }

    static lemma FaultIsOf(token: Token, out: Outcome, mode0: Mode, s0: Snapshot, mode: Mode, s: Snapshot)
      requires FaultIs(token, out, mode0, s0, mode, s) && !out.Reprocess?
      ensures FaultOf(mode0, token, s0) == if out.Failed? then Some(out.fault) else None
    {
      hide FaultOf;
    }

    static lemma HandledAtLast(token: Token, out: Outcome, mode0: Mode, open0: Stack, mode: Mode, original: Mode, open: Stack, active: Entries, head: Option<Element>,
                               t: Tree, rank: map<NodeId, real>, next: NodeId)
      requires Handled(token, out, mode0, open0, mode, original, open, active, head, t, rank, next) && !out.Reprocess?
      ensures out.Failed? ==> MayFail(token) && !token.EndOfFile?
      ensures if token.EndOfFile? then open == [] && Sound(open, active, t, rank, next) else Running(mode, original, open, active, head, t, rank, next)
    {
      hide Running;
      hide Sound;
    }
  }

  /**
   Tokens written until the end of the file or a token that cannot be processed.  Every run stays among the
   states between tokens, whatever the tokens are, and the end of the file closes every element.
   */
  method WriteElements(construction: TreeConstruction, tokens: seq<Token>) returns (written: nat, failed: bool)
    requires Running(construction.mode, construction.originalMode, construction.open, construction.active, construction.headElement,
                     construction.tree, construction.rank, construction.nextId)
    modifies construction
    ensures written <= |tokens| && forall i :: 0 <= i < written - 1 ==> !tokens[i].EndOfFile?
    ensures if written > 0 && tokens[written - 1].EndOfFile?
            then construction.open == []
            else Running(construction.mode, construction.originalMode, construction.open, construction.active, construction.headElement,
                         construction.tree, construction.rank, construction.nextId)
    ensures failed ==> written < |tokens| && MayFail(tokens[written])
    ensures !failed ==> written == |tokens| || (written > 0 && tokens[written - 1].EndOfFile?)
  {
    hide *;
    written, failed := 0, false;
    while written < |tokens|
      invariant written <= |tokens| && forall i :: 0 <= i < written ==> !tokens[i].EndOfFile?
      invariant Running(construction.mode, construction.originalMode, construction.open, construction.active, construction.headElement,
                        construction.tree, construction.rank, construction.nextId)
    {
      var out := construction.WriteElement(tokens[written]);
      if out.Failed? {
        failed := true;
        return;
      }
      written := written + 1;
      if tokens[written - 1].EndOfFile? {
        return;
      }
    }
  }
}
