/**
 What tree construction keeps true of the stack, the formatting list and the tree taken together, and the
 measure by which the processing of a token gets smaller.
 */
module HtmlState {
  import opened Wrappers
  import opened HtmlNames
  import opened HtmlStack
  import opened HtmlFormatting
  import opened HtmlTree

  // ---------------------------------------------------------------------------------------------
  // Soundness

  // Identities are given out in order, to nodes and to entries alike.
  ghost predicate Bounded(active: Entries, t: Tree, next: NodeId) {
    && DOCUMENT in t
    && (forall x :: x in t ==> x < next)
    && (forall p :: 0 <= p < |active| ==> active[p].id < next)
    && (forall p :: 0 <= p < |active| && active[p].Formatting? ==> active[p].element.id < next)
  }

  ghost predicate Grounded(open: Stack, active: Entries, t: Tree, rank: map<NodeId, real>, next: NodeId) {
    Lineage(t, rank, open) && WellFormed(active) && Bounded(active, t, next)
  }

  ghost predicate Sound(open: Stack, active: Entries, t: Tree, rank: map<NodeId, real>, next: NodeId) {
    Grounded(open, active, t, rank, next) && Balanced(open, active)
  }

  lemma NewIsUnknown(open: Stack, active: Entries, t: Tree, rank: map<NodeId, real>, next: NodeId, e: Element)
    requires Grounded(open, active, t, rank, next) && e.id >= next
    ensures e.id !in t && e !in open && !InList(e, active)
  {
  }

  lemma GroundedIsDistinct(open: Stack, active: Entries, t: Tree, rank: map<NodeId, real>, next: NodeId)
    requires Grounded(open, active, t, rank, next)
    ensures Distinct(open)
  {
  }

  lemma GroundedPush(open: Stack, active: Entries, t: Tree, rank: map<NodeId, real>, next: NodeId, tag: Tag)
    requires Grounded(open, active, t, rank, next) && open != []
    ensures var e, top := NewElement(next, tag), Top(open).id;
            top in t && top in rank &&
            Grounded(open + [e], active, Grown(t, top, next, ElementNode(e)), rank[next := rank[top] + 1.0], next + 1)
  {
    LineagePush(t, rank, open, NewElement(next, tag));
  }

  lemma GroundedLeaf(open: Stack, active: Entries, t: Tree, rank: map<NodeId, real>, next: NodeId, place: NodeId, content: Content)
    requires Grounded(open, active, t, rank, next) && place in t
    ensures place in rank && Grounded(open, active, Grown(t, place, next, content), rank[next := rank[place] + 1.0], next + 1)
  {
    LineageGrow(t, rank, open, place, next, content);
  }

  lemma GroundedEntry(open: Stack, active: Entries, t: Tree, rank: map<NodeId, real>, next: NodeId, entry: Entry)
    requires Grounded(open, active, t, rank, next) && entry.id == next
    requires entry.Formatting? ==> OwnElement(entry) && entry.element.id < next && !InList(entry.element, active)
    requires entry.Formatting? ==> Kin(active, FamilyOf(entry.element)) < 3
    ensures Grounded(open, active + [entry], t, rank, next + 1)
  {
    ArkPush(active, entry);
    hide Lineage;
    hide Ark;
  }

  lemma GroundedWithout(open: Stack, active: Entries, t: Tree, rank: map<NodeId, real>, next: NodeId, q: nat)
    requires Grounded(open, active, t, rank, next) && q < |active| && active[q].Formatting?
    ensures Grounded(open, Removed(active, q), t, rank, next)
  {
    ArkRemove(active, q);
    hide Lineage;
    hide Ark;
    var list := Removed(active, q);
    forall p | 0 <= p < |list|
      ensures list[p] == active[if p < q then p else p + 1]
    {
    }
  }

  lemma GroundedPrefix(open: Stack, active: Entries, t: Tree, rank: map<NodeId, real>, next: NodeId, k: nat)
    requires Grounded(open, active, t, rank, next) && k <= |active|
    ensures Grounded(open, active[..k], t, rank, next)
  {
    ArkOfPrefix(active, k);
    hide Lineage;
    hide Ark;
  }

  lemma SoundPush(open: Stack, active: Entries, t: Tree, rank: map<NodeId, real>, next: NodeId, tag: Tag)
    requires Sound(open, active, t, rank, next) && open != [] && !TakesMarker(tag.name)
    ensures Balanced(open + [NewElement(next, tag)], active)
  {
    NewIsUnknown(open, active, t, rank, next, NewElement(next, tag));
    BalancedPush(open, active, NewElement(next, tag));
  }

  lemma SoundMark(open: Stack, active: Entries, t: Tree, rank: map<NodeId, real>, next: NodeId, tag: Tag, m: Entry)
    requires Sound(open, active, t, rank, next) && open != [] && m.Marker?
    ensures Balanced(open + [NewElement(next, tag)], active + [m])
    ensures Balanced(open + [NewElement(next + 1, tag)], active + [m])
  {
    NewIsUnknown(open, active, t, rank, next, NewElement(next, tag));
    NewIsUnknown(open, active, t, rank, next, NewElement(next + 1, tag));
    BalancedMark(open, active, NewElement(next, tag), m);
    BalancedMark(open, active, NewElement(next + 1, tag), m);
  }

  lemma SoundCut(open: Stack, active: Entries, t: Tree, rank: map<NodeId, real>, next: NodeId, k: nat)
    requires Sound(open, active, t, rank, next) && k <= |open|
    ensures Sound(open[..k], active, t, rank, next)
  {
    LineageCut(t, rank, open, k);
    BalancedCut(open, active, k);
  }

  lemma GroundedCut(open: Stack, active: Entries, t: Tree, rank: map<NodeId, real>, next: NodeId, k: nat)
    requires Grounded(open, active, t, rank, next) && k <= |open|
    ensures Grounded(open[..k], active, t, rank, next)
  {
    LineageCut(t, rank, open, k);
  }

  lemma SoundRemove(open: Stack, active: Entries, t: Tree, rank: map<NodeId, real>, next: NodeId, k: nat)
    requires Sound(open, active, t, rank, next) && 0 < k < |open|
    ensures Sound(Removed(open, k), active, t, rank, next)
  {
    LineageRemove(t, rank, open, k);
    BalancedRemove(open, active, k);
  }

  lemma SoundDrop(open: Stack, active: Entries, t: Tree, rank: map<NodeId, real>, next: NodeId, q: nat)
    requires Sound(open, active, t, rank, next) && q < |active| && active[q].Formatting?
    ensures Sound(open, Removed(active, q), t, rank, next)
  {
    GroundedWithout(open, active, t, rank, next, q);
    BalancedLeave(open, active, q);
  }

  /** Closing an element that takes a marker, and clearing the list back to the last marker. */
  lemma SoundClear(open: Stack, active: Entries, t: Tree, rank: map<NodeId, real>, next: NodeId, k: nat)
    requires Sound(open, active, t, rank, next) && k < |open| && TakesMarker(open[k].name)
    ensures LastMarker(active) >= 0
    ensures Sound(open[..k], active[..LastMarker(active)], t, rank, next)
  {
    GroundedCut(open, active, t, rank, next, k);
    BalancedClear(open, active, k);
    GroundedPrefix(open[..k], active, t, rank, next, LastMarker(active));
  }

  lemma SoundEntry(open: Stack, active: Entries, t: Tree, rank: map<NodeId, real>, next: NodeId, tag: Tag)
    requires Sound(open, active, t, rank, next) && open != [] && IsFormatting(tag.name)
    requires Top(open).id < next && Top(open) == NewElement(Top(open).id, tag) && !InList(Top(open), active)
    requires Kin(active, FamilyOf(Top(open))) < 3
    ensures Sound(open, active + [Formatting(next, Top(open), tag)], t, rank, next + 1)
  {
    var entry := Formatting(next, Top(open), tag);
    GroundedEntry(open, active, t, rank, next, entry);
    GroundedIsDistinct(open, active, t, rank, next);
    hide Grounded;
    hide Balanced;
    hide InList;
    BalancedEnter(open, active, |active|, entry);
    assert Inserted(active, |active|, entry) == active + [entry];
  }

  // An entry that is not open given a new element, which is pushed.
  lemma SoundReopen(open: Stack, active: Entries, t: Tree, rank: map<NodeId, real>, next: NodeId, q: nat)
    requires Sound(open, active, t, rank, next) && open != [] && LastMarker(active) < q < |active| && active[q].Formatting?
    ensures var e, top := NewElement(next, active[q].tag), Top(open).id;
            top in t && top in rank &&
            Sound(open + [e], active[q := active[q].(element := e)], Grown(t, top, next, ElementNode(e)), rank[next := rank[top] + 1.0], next + 1)
  {
    var e := NewElement(next, active[q].tag);
    NewIsUnknown(open, active, t, rank, next, e);
    OwnTakesNoMarker(open, active, t, rank, next, q);
    hide Grounded;
    hide Balanced;
    hide InList;
    hide TakesMarker;
    hide Grown;
    GroundedPush(open, active, t, rank, next, active[q].tag);
    BalancedReopen(open, active, q, e);
    GroundedReplace(open + [e], active, Grown(t, Top(open).id, next, ElementNode(e)), rank[next := rank[Top(open).id] + 1.0], next + 1, q, e);
  }

  lemma OwnTakesNoMarker(open: Stack, active: Entries, t: Tree, rank: map<NodeId, real>, next: NodeId, q: nat)
    requires Grounded(open, active, t, rank, next) && q < |active| && active[q].Formatting?
    ensures !TakesMarker(active[q].tag.name) && IsPlain(active[q].tag.name) && active[q].element.name == active[q].tag.name
  {
    hide Lineage;
  }

  lemma GroundedReplace(open: Stack, active: Entries, t: Tree, rank: map<NodeId, real>, next: NodeId, q: nat, e: Element)
    requires Grounded(open, active, t, rank, next) && q < |active| && active[q].Formatting?
    requires e.id < next && !InList(e, active) && e == NewElement(e.id, active[q].tag)
    ensures Grounded(open, active[q := active[q].(element := e)], t, rank, next)
  {
    ArkReplace(active, q, e);
    hide Lineage;
    hide Ark;
  }

  lemma SoundText(open: Stack, active: Entries, t: Tree, rank: map<NodeId, real>, next: NodeId, x: NodeId, data: string)
    requires Sound(open, active, t, rank, next) && x in t && t[x].content.TextNode?
    ensures Sound(open, active, t[x := t[x].(content := TextNode(data))], rank, next)
  {
    LineageText(t, rank, open, x, data);
    hide Lineage;
  }

  // ---------------------------------------------------------------------------------------------
  // The state between tokens

  ghost predicate HeadKept(head: Option<Element>, open: Stack, t: Tree, rank: map<NodeId, real>) {
    && head.Some? && head.value.name.Head? && open != [] && head.value.id in t && t[head.value.id].content == ElementNode(head.value)
    && open[0].id in rank && head.value.id in rank && rank[open[0].id] < rank[head.value.id]
    && Reaches(t, open[0].id, head.value.id)
  }

  predicate UsesHead(mode: Mode, original: Mode) {
    mode.InHead? || mode.InHeadNoscript? || mode.AfterHead?
    || (mode.Text? && (original.InHead? || original.InHeadNoscript? || original.AfterHead?))
  }

  // Modes outside any body, in which no formatting element is active.
  predicate IsQuiet(mode: Mode) {
    || mode.Initial? || mode.BeforeHtml? || mode.BeforeHead? || mode.InHead? || mode.InHeadNoscript? || mode.AfterHead?
    || mode.InFrameset? || mode.AfterFrameset? || mode.AfterAfterFrameset?
  }

  ghost predicate Settled(mode: Mode, original: Mode, open: Stack, active: Entries, head: Option<Element>, t: Tree, rank: map<NodeId, real>) {
    && Fits(mode, original, open)
    && (UsesHead(mode, original) ==> HeadKept(head, open, t, rank))
    && (IsQuiet(mode) || (mode.Text? && IsQuiet(original)) ==> active == [])
  }

  // ---------------------------------------------------------------------------------------------
  // The measure

  // Tokens the rules themselves simulate in this mode, and process without simulating another.
  predicate Direct(mode: Mode, token: Token, open: Stack) {
    match token
    case StartTag(tag) =>
      var n := tag.name;
      || (mode.BeforeHead? && n.Head?) || (mode.AfterHead? && n.Body?)
      || (mode.InTable? && (n.Colgroup? || n.Tbody?)) || (mode.InTableBody? && n.Tr?)
      || (IsBodyMode(mode) && (n.Br? || n.LabelName?))
    case EndTag(tag) =>
      var n := tag.name;
      || (mode.InHead? && n.Head?) || (mode.InHeadNoscript? && n.Noscript?) || (mode.InBody? && n.Body?)
      || (IsBodyMode(mode) && (n.Li? || n.Button? || n.A? || n.Nobr? || n.OptionName? || n.LabelName? || n.Form?))
      || (IsBodyMode(mode) && n.P? && InScope(open, {P}, ButtonScope))
      || (mode.InCaption? && n.Caption?) || (mode.InColumnGroup? && n.Colgroup?)
      || (mode.InTableBody? && IsTableBody(n)) || (mode.InRow? && n.Tr?) || (mode.InCell? && IsCell(n))
      || (IsSelectMode(mode) && (n.Select? || n.OptionName?))
    case _ => false
  }

  // How deeply processing the token may simulate others.
  function Need(mode: Mode, token: Token, open: Stack): nat {
    if Direct(mode, token, open) then 0
    else if token.StartTag? && IsBodyMode(mode) && (token.tag.name.P? || token.tag.name.Hr? || token.tag.name.Form?) then 1
    else if token.EndTag? && IsRowMode(mode) && token.tag.name.Table? then 1
    else if token.EndTag? && IsSelectMode(mode) && token.tag.name.Optgroup? then 1
    else 2
  }

  // Bounds how often the token is processed again, mode after mode.
  function Steps(mode: Mode, token: Token): nat {
    var table := token.StartTag? && token.tag.name.Table?;
    var cell := token.StartTag? && IsCell(token.tag.name);
    var row := token.StartTag? && token.tag.name.Tr?;
    var html := token.EndTag? && token.tag.name.Html?;
    match mode
    case Text => 31
    case Initial => 30
    case BeforeHtml => 29
    case BeforeHead => 28
    case InHeadNoscript => 27
    case InHead => 26
    case AfterHead => 25
    case AfterAfterBody => 24
    case AfterBody => if html then 22 else 24
    case InBody => if html then 23 else 1
    case InSelect | InSelectInTable => 20
    case InTableText => if token.Character? then 0 else 19
    case InCell | InCaption => if table then 1 else 11
    case InColumnGroup => if table then 3 else if token.StartTag? && token.tag.name.Col? then 7 else 11
    case InRow => if table then 2 else if cell then 5 else 10
    case InTableBody => if table then 2 else if cell then 6 else 9
    case InTable => if table then 2 else if cell then 7 else if row then 10 else 8
    case _ => 0
  }

  function Turns(mode: Mode, token: Token): nat {
    2 * Steps(mode, token) + if token.StartTag? && token.tag.name.Image? then 1 else 0
  }

  predicate Smaller(mode: Mode, token: Token, open: Stack, mode0: Mode, token0: Token, open0: Stack) {
    var need, need0 := Need(mode, token, open), Need(mode0, token0, open0);
    var turns, turns0 := Turns(mode, token), Turns(mode0, token0);
    need < need0 || (need == need0 && (turns < turns0 || (turns == turns0 && |open| < |open0|)))
  }

  // Where a comment goes: to the document before and after the elements, else to the current node.
  function CommentPlace(mode: Mode, open: Stack): NodeId {
    if mode.Initial? || mode.BeforeHtml? || mode.AfterAfterBody? || mode.AfterAfterFrameset? || open == [] then DOCUMENT else Top(open).id
  }

  // ---------------------------------------------------------------------------------------------
  // Processing a token

  // Why a token could not be processed: the adoption agency looks before the first entry of the list,
  // or the token takes a branch this model leaves out.
  datatype Fault = BeforeFirstEntry | NotModelled

  datatype Outcome = Done(ignored: bool) | Reprocess(token: Token) | Failed(fault: Fault)

  // Between tokens.
  ghost predicate Running(mode: Mode, original: Mode, open: Stack, active: Entries, head: Option<Element>,
                          t: Tree, rank: map<NodeId, real>, next: NodeId)
  {
    Sound(open, active, t, rank, next) && Settled(mode, original, open, active, head, t, rank)
  }

  // Between tokens, in a body, a cell or a caption.
  ghost predicate Flowing(mode: Mode, open: Stack, active: Entries, t: Tree, rank: map<NodeId, real>, next: NodeId) {
    Sound(open, active, t, rank, next) && IsBodyMode(mode) && ZoneOf(open) == Home(mode)
  }

  lemma FlowingRuns(mode: Mode, original: Mode, open: Stack, active: Entries, head: Option<Element>,
                    t: Tree, rank: map<NodeId, real>, next: NodeId)
    ensures Flowing(mode, open, active, t, rank, next) <==> Running(mode, original, open, active, head, t, rank, next) && IsBodyMode(mode)
    ensures Flowing(mode, open, active, t, rank, next) ==> open != [] && IsFlow(ZoneOf(open)) && Sound(open, active, t, rank, next)
  {
    hide Topmost;
    hide InScope;
    hide Anchor;
    hide IsPlain;
    hide IsSpecial;
    hide Sound;
  }

  // The only tokens that can fail: end tags of formatting elements, and start tags that simulate one or
  // are left out.
  predicate MayFail(token: Token) {
    match token
    case StartTag(tag) => tag.name.A? || tag.name.Nobr? || tag.name.Dd? || tag.name.Dt? || tag.name.Math? || tag.name.Svg?
    case EndTag(tag) => IsFormatting(tag.name)
    case _ => false
  }

  // In a body, or after it, from where other tokens lead back to it.
  predicate IsBodyLike(mode: Mode) {
    IsBodyMode(mode) || mode.AfterBody? || mode.AfterAfterBody?
  }

  predicate IsBeforeBody(mode: Mode) {
    mode.Initial? || mode.BeforeHtml? || mode.BeforeHead? || mode.InHead? || mode.InHeadNoscript? || mode.AfterHead?
  }

  predicate MayFailIn(mode: Mode, token: Token) {
    MayFail(token) && (IsBodyLike(mode) || IsBeforeBody(mode))
  }

  // A token that is processed again is the same, except that an image start tag becomes an img start tag.
  predicate Again(token: Token, token0: Token) {
    token == token0 || (token0.StartTag? && token0.tag.name.Image? && token.StartTag? && token.tag.name.Img?)
  }

  // Where the token may fail it may fail already.
  predicate Follows(mode0: Mode, token: Token, mode: Mode) {
    MayFailIn(mode, token) ==> MayFailIn(mode0, token)
  }

  // Of the tokens that rules simulate, only the end tag of a table is processed again.
  predicate Onward(mode0: Mode, token: Token, open0: Stack, mode: Mode) {
    && (Need(mode0, token, open0) == 2 || (token.EndTag? && token.tag.name.Table? && IsRowMode(mode0) && IsRowMode(mode)))
    && Follows(mode0, token, mode)
  }

  // What the rules of every mode guarantee.
  ghost predicate Handled(token: Token, out: Outcome, mode0: Mode, open0: Stack, mode: Mode, original: Mode,
                          open: Stack, active: Entries, head: Option<Element>, t: Tree, rank: map<NodeId, real>, next: NodeId)
  {
    && (if token.EndOfFile? && out.Done? then open == [] && Sound(open, active, t, rank, next)
        else Running(mode, original, open, active, head, t, rank, next))
    && (out.Failed? ==> MayFailIn(mode0, token))
    && (out.Reprocess? ==> Smaller(mode, out.token, open, mode0, token, open0) && Onward(mode0, token, open0, mode) && Again(out.token, token))
  }

  lemma HandledAgain(token: Token, out: Outcome, mode0: Mode, open0: Stack, again: Token, mode1: Mode, open1: Stack,
                     mode: Mode, original: Mode, open: Stack, active: Entries, head: Option<Element>, t: Tree, rank: map<NodeId, real>, next: NodeId)
    requires Handled(again, out, mode1, open1, mode, original, open, active, head, t, rank, next) && !out.Reprocess?
    requires Onward(mode0, token, open0, mode1) && Again(again, token)
    ensures Handled(token, out, mode0, open0, mode, original, open, active, head, t, rank, next)
  {
    hide Running;
    hide Sound;
    hide Smaller;
    hide Need;
  }

  // Simulated tokens that leave a body mode as it is.
  predicate StaysPut(mode: Mode, token: Token, open: Stack) {
    && IsBodyMode(mode)
    && match token
       case StartTag(tag) => tag.name.Br? || tag.name.LabelName? || tag.name.P? || tag.name.Hr? || tag.name.Form?
       case EndTag(tag) =>
         || tag.name.Li? || tag.name.Button? || tag.name.A? || tag.name.Nobr? || tag.name.OptionName? || tag.name.LabelName?
         || tag.name.Form? || (tag.name.P? && InScope(open, {P}, ButtonScope))
       case _ => false
  }

  lemma NeedToStay(mode: Mode, token: Token, open: Stack)
    requires StaysPut(mode, token, open)
    ensures Need(mode, token, open) == if token.StartTag? && (token.tag.name.P? || token.tag.name.Hr? || token.tag.name.Form?) then 1 else 0
    ensures Turns(mode, token) >= 2
  {
    hide InScope;
  }

  // A token is processed again in a mode nearer its end.
  lemma NextMode(token: Token, mode0: Mode, open0: Stack, mode: Mode, original: Mode, open: Stack, active: Entries, head: Option<Element>,
                 t: Tree, rank: map<NodeId, real>, next: NodeId)
    requires Running(mode, original, open, active, head, t, rank, next)
    requires Steps(mode, token) < Steps(mode0, token)
    requires Need(mode0, token, open0) == 2 || (token.EndTag? && token.tag.name.Table? && IsRowMode(mode0) && IsRowMode(mode))
    requires Follows(mode0, token, mode)
    ensures Handled(token, Reprocess(token), mode0, open0, mode, original, open, active, head, t, rank, next)
  {
    hide Running;
    hide Sound;
    hide Steps;
    hide Smaller;
    hide Onward;
    NextIsSmaller(token, mode0, open0, mode, open);
  }

  lemma NextIsSmaller(token: Token, mode0: Mode, open0: Stack, mode: Mode, open: Stack)
    requires Steps(mode, token) < Steps(mode0, token)
    requires Need(mode0, token, open0) == 2 || (token.EndTag? && token.tag.name.Table? && IsRowMode(mode0) && IsRowMode(mode))
    requires Follows(mode0, token, mode)
    ensures Smaller(mode, token, open, mode0, token, open0) && Onward(mode0, token, open0, mode)
  {
    hide *;
    TurnsFollow(token, mode0, mode);
    NeedFollows(token, mode0, open0, mode, open);
    SmallerByTurns(token, mode0, open0, mode, open);
    OnwardIf(token, mode0, open0, mode);
  }

  lemma OnwardIf(token: Token, mode0: Mode, open0: Stack, mode: Mode)
    requires Need(mode0, token, open0) == 2 || (token.EndTag? && token.tag.name.Table? && IsRowMode(mode0) && IsRowMode(mode))
    requires Follows(mode0, token, mode)
    ensures Onward(mode0, token, open0, mode)
  {
    hide Need;
  }

  lemma SmallerByTurns(token: Token, mode0: Mode, open0: Stack, mode: Mode, open: Stack)
    requires Turns(mode, token) < Turns(mode0, token) && Need(mode, token, open) <= Need(mode0, token, open0)
    ensures Smaller(mode, token, open, mode0, token, open0)
  {
    hide Need;
    hide Turns;
  }

  lemma NeedFollows(token: Token, mode0: Mode, open0: Stack, mode: Mode, open: Stack)
    requires Need(mode0, token, open0) == 2 || (token.EndTag? && token.tag.name.Table? && IsRowMode(mode0) && IsRowMode(mode))
    ensures Need(mode, token, open) <= Need(mode0, token, open0)
  {
    hide *;
    NeedIsSmall(mode, token, open);
    if token.EndTag? && token.tag.name.Table? && IsRowMode(mode0) && IsRowMode(mode) {
      NeedOfTableEnd(mode, token, open);
      NeedOfTableEnd(mode0, token, open0);
    }
  }

  lemma TurnsFollow(token: Token, mode0: Mode, mode: Mode)
    requires Steps(mode, token) < Steps(mode0, token)
    ensures Turns(mode, token) < Turns(mode0, token)
  {
    hide Steps;
  }

  lemma NeedIsSmall(mode: Mode, token: Token, open: Stack)
    ensures Need(mode, token, open) <= 2
  {
    hide Direct;
  }

  lemma NeedOfTableEnd(mode: Mode, token: Token, open: Stack)
    requires token.EndTag? && token.tag.name.Table? && IsRowMode(mode)
    ensures Need(mode, token, open) == 1
  {
    hide InScope;
  }

  lemma DoneWith(token: Token, ignored: bool, mode0: Mode, open0: Stack, mode: Mode, original: Mode, open: Stack, active: Entries, head: Option<Element>,
                 t: Tree, rank: map<NodeId, real>, next: NodeId)
    requires Running(mode, original, open, active, head, t, rank, next) && !token.EndOfFile?
    ensures Handled(token, Done(ignored), mode0, open0, mode, original, open, active, head, t, rank, next)
  {
    hide Running;
    hide Sound;
  }

  // A step that leaves the stack, the list and the mode alone.
  lemma StillRuns(mode: Mode, original: Mode, open: Stack, active: Entries, head: Option<Element>, t0: Tree, rank0: map<NodeId, real>,
                  t: Tree, rank: map<NodeId, real>, next: NodeId)
    requires Settled(mode, original, open, active, head, t0, rank0) && Sound(open, active, t, rank, next)
    requires HeadKept(head, open, t0, rank0) ==> HeadKept(head, open, t, rank)
    ensures Running(mode, original, open, active, head, t, rank, next)
  {
    hide Sound;
    hide HeadKept;
    hide Fits;
  }

  lemma RunningParts(mode: Mode, original: Mode, open: Stack, active: Entries, head: Option<Element>, t: Tree, rank: map<NodeId, real>, next: NodeId)
    requires Running(mode, original, open, active, head, t, rank, next)
    ensures Sound(open, active, t, rank, next) && Settled(mode, original, open, active, head, t, rank) && Fits(mode, original, open)
    ensures !mode.Text? && !mode.InTableText? ==> ZoneOf(open) == Home(mode)
    ensures !mode.Initial? && !mode.BeforeHtml? ==> open != []
  {
    hide Sound;
    hide HeadKept;
    if open == [] {
      assert ZoneOf(open) == Nothing;
    }
  }

  // ---------------------------------------------------------------------------------------------
  // What holds between tokens, without the measures the proofs carry

  /** The tree and the stack: no cycles, links both ways, and no later entry an ancestor of an earlier one. */
  lemma TreeBetweenTokens(mode: Mode, original: Mode, open: Stack, active: Entries, head: Option<Element>,
                          t: Tree, rank: map<NodeId, real>, next: NodeId)
    requires Running(mode, original, open, active, head, t, rank, next)
    ensures Acyclic(t) && Linked(t)
    ensures forall i :: 0 <= i < |open| ==> open[i].id in t && t[open[i].id].content == ElementNode(open[i]) && Reaches(t, open[0].id, open[i].id)
    ensures forall i, j :: 0 <= i < j < |open| ==> open[i] != open[j] && !Reaches(t, open[j].id, open[i].id)
  {
    hide Balanced;
    hide WellFormed;
    hide Settled;
    hide Reaches;
    RankedIsAcyclic(t, rank);
    forall i, j | 0 <= i < j < |open|
      ensures open[i] != open[j] && !Reaches(t, open[j].id, open[i].id)
    {
      NoLaterAncestor(t, rank, open, i, j);
    }
  }

  /**
   The stack and the formatting list: every open element that takes a marker has a marker of its own, in
   order, and what is still open of the entries after that marker is above the element and above what is
   open of the entries before it.  No four entries of a family stand between two markers.
   */
  lemma ListBetweenTokens(mode: Mode, original: Mode, open: Stack, active: Entries, head: Option<Element>,
                          t: Tree, rank: map<NodeId, real>, next: NodeId)
    requires Running(mode, original, open, active, head, t, rank, next)
    ensures Ark(active) && Ordered(open, active)
    ensures forall p, q :: 0 <= p < q < |active| && active[p].Formatting? && active[q].Formatting? ==> active[p].element != active[q].element
    ensures forall s :: 0 <= s < |open| && TakesMarker(open[s].name) ==>
              var m := MarkerOf(open, active, s);
              && 0 <= m < |active| && active[m].Marker?
              && (forall u :: s < u < |open| && TakesMarker(open[u].name) ==> m < MarkerOf(open, active, u))
              && (forall p, u :: 0 <= u < |open| && IsOpenAt(open, active, p, u) && m < p ==> s < u)
  {
    hide Lineage;
    hide Settled;
    hide Counted;
    hide Ordered;
    hide Ark;
    hide MarkerOf;
    hide TakesMarker;
    hide IsOpenAt;
    MarkersMatch(open, active);
  }

  /** Elements without contents are never left open. */
  lemma NothingEmptyIsOpen(mode: Mode, original: Mode, open: Stack, active: Entries, head: Option<Element>,
                           t: Tree, rank: map<NodeId, real>, next: NodeId)
    requires Running(mode, original, open, active, head, t, rank, next)
    ensures forall e :: e in open ==>
              e.name !in {Area, Base, Basefont, Bgsound, Br, Col, Embed, Frame, Hr, Image, Img, Input, Keygen, Link, Menuitem, Meta,
                          Param, Source, Track, Wbr}
  {
    hide Sound;
    hide HeadKept;
    hide ZoneOf;
    if mode.Text? {
      NoneHoldsNothing(Below(open));
      assert open == Below(open) + [Top(open)];
    } else {
      NoneHoldsNothing(open);
    }
  }

  /** The insertion mode fixes the shape of the stack. */
  lemma ShapeBetweenTokens(mode: Mode, original: Mode, open: Stack, active: Entries, head: Option<Element>,
                           t: Tree, rank: map<NodeId, real>, next: NodeId)
    requires Running(mode, original, open, active, head, t, rank, next)
    ensures mode.InTable? ==> EndsWithTable(open)
    ensures mode.InColumnGroup? ==> |open| > 2 && Top(open).name.Colgroup? && EndsWithTable(Below(open))
    ensures mode.InTableBody? ==> EndsWithTableBody(open)
    ensures mode.InRow? ==> EndsWithRow(open)
    ensures mode.InCell? ==> exists k :: 0 < k < |open| && IsCell(open[k].name) && AllPlain(open[k + 1..]) && EndsWithRow(open[..k])
    ensures mode.InCaption? ==> exists k :: 0 < k < |open| && open[k].name.Caption? && AllPlain(open[k + 1..]) && EndsWithTable(open[..k])
    ensures mode.InBody? || mode.AfterBody? || mode.AfterAfterBody? ==>
              |open| > 1 && open[0].name.Html? && open[1].name.Body? && AllPlain(open[2..])
  {
    hide Sound;
    hide Fits;
    ShapeOfMode(mode, original, open);
  }
}
