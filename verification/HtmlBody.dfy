/**
 What a token does in a body, a cell or a caption, as a function of the stack, the list and the tree: the
 rules with the tokens they make up and the tokens they process again already worked in.
 */
module HtmlBody {
  import opened Wrappers
  import opened HtmlNames
  import opened HtmlStack
  import opened HtmlFormatting
  import opened HtmlTree
  import opened HtmlState
  import opened HtmlAdoption

  type FormElement = e: Element | e.name.Form? witness Element(0, Form, map[])

  // ---------------------------------------------------------------------------------------------
  // Steps

  // A new element for the tag, the last child of the current node, becomes the current node.
  function Opened(s: Snapshot, tag: Tag): Snapshot {
    var e := NewElement(s.next, tag);
    Snapshot(s.open + [e], s.active, if s.open == [] then s.tree else Grown(s.tree, Top(s.open).id, s.next, ElementNode(e)), s.next + 1)
  }

  // An element without contents: opened and closed.
  function Voided(s: Snapshot, tag: Tag): Snapshot {
    Opened(s, tag).(open := s.open)
  }

  // A formatting element, with an entry in the list.
  function Formatted(s: Snapshot, tag: Tag): Snapshot {
    Opened(s, tag).(active := Entered(s.active, Formatting(s.next + 1, NewElement(s.next, tag), tag)), next := s.next + 2)
  }

  // An element together with a marker.
  function Marked(s: Snapshot, tag: Tag): Snapshot {
    Opened(s, tag).(active := s.active + [Marker(s.next + 1)], next := s.next + 2)
  }

  // Entries that are not open, back to the rightmost that is or that is a marker, get new elements, which
  // are pushed in the order of the list, each a child of the one before.
  function Reconstructed(s: Snapshot): Snapshot {
    var first := ReopenFrom(s.active, s.open);
    var es := NewElements(s.active, first, |s.active|, s.next);
    Snapshot(s.open + es, Reopened(s.active, first, |s.active|, s.next),
             if s.open == [] then s.tree else Chained(s.tree, Top(s.open).id, es), s.next + |es|)
  }

  // A character joins the text that ends the current node, or begins one there.
  function Typed(s: Snapshot, data: char): Snapshot {
    if s.open == [] then s
    else
      var place := Top(s.open).id;
      s.(tree := WithText(s.tree, place, s.next, data), next := if EndsInText(s.tree, place) then s.next else s.next + 1)
  }

  function Commented(s: Snapshot, text: string): Snapshot {
    if s.open == [] then s else s.(tree := Grown(s.tree, Top(s.open).id, s.next, CommentNode(text)), next := s.next + 1)
  }

  // ---------------------------------------------------------------------------------------------
  // Start tags

  // Start tags that open their element once an open p is closed.
  predicate OpensAlone(n: Name) {
    IsBlock(n) || n.P? || n.Plaintext? || n.Pre? || n.Listing?
  }

  predicate IsVoidInHead(n: Name) {
    n.Base? || n.Basefont? || n.Bgsound? || n.Link? || n.Meta?
  }

  // What belongs in a head, wherever it occurs.
  function HeadStep(s: Snapshot, tag: Tag): Snapshot {
    if IsVoidInHead(tag.name) then Voided(s, tag) else Opened(s, tag)
  }

  // Start tags whose element holds nothing but text.
  predicate OpensText(n: Name, scripting: bool) {
    (IsHeadContent(n) && !IsVoidInHead(n)) || n.Textarea? || n.Iframe? || n.Noembed? || (n.Noscript? && scripting) || n.Xmp?
  }

  // Start tags that are without effect on stack, list and tree in a body.
  predicate OpensNothing(n: Name) {
    n.Html? || n.Body? || n.Frameset? || n.Frame? || n.Head? || IsTablePart(n)
  }

  function WithoutParagraph(s: Snapshot): Snapshot {
    s.(open := WithoutP(s.open))
  }

  // A heading directly in a heading closes it.
  function WithoutHeading(open: Stack): Stack {
    if open != [] && IsHeading(Top(open).name) then Below(open) else open
  }

  function WithoutAHeading(s: Snapshot): Snapshot {
    s.(open := WithoutHeading(s.open))
  }

  function WithoutItem(s: Snapshot): Snapshot {
    s.(open := WithoutLi(s.open))
  }

  function WithoutAnOption(s: Snapshot): Snapshot {
    s.(open := WithoutOption(s.open))
  }

  // A button that is in scope is closed.
  function WithoutAButton(s: Snapshot): Snapshot {
    if InScope(s.open, {Button}, Ordinary) then s.(open := s.open[..Topmost(s.open, {Button})]) else s
  }

  // The stack once all buttons in scope are closed, from the innermost outwards.
  function WithoutButtons(open: Stack): (r: Stack)
    ensures r <= open && !InScope(r, {Button}, Ordinary)
    decreases |open|
  {
    if InScope(open, {Button}, Ordinary) then WithoutButtons(open[..Topmost(open, {Button})]) else open
  }

  function WithoutAllButtons(s: Snapshot): Snapshot {
    s.(open := WithoutButtons(s.open))
  }

  // An element and its entry are dropped wherever they are.
  function WithoutElement(s: Snapshot, e: Element): Snapshot {
    var p, k := EntryOf(s.active, e), IndexOf(s.open, e);
    s.(active := if p < 0 then s.active else Removed(s.active, p), open := if k < 0 then s.open else Removed(s.open, k))
  }

  function Agency(s: Snapshot, name: Name): Snapshot {
    Rounds(8, s, name)
  }

  // An a in an a: the earlier one is ended by the adoption agency and dropped.
  function AnchorStep(s: Snapshot, tag: Tag): Snapshot {
    var k := LastNamed(s.active, A);
    Formatted(Reconstructed(if k < 0 then s else WithoutElement(Agency(s, A), s.active[k].element)), tag)
  }

  // A nobr in a nobr: the earlier one is ended by the adoption agency.
  function NobrStep(s: Snapshot, tag: Tag): Snapshot {
    var r := Reconstructed(s);
    Formatted(if InScope(r.open, {Nobr}, Ordinary) then Reconstructed(Agency(r, Nobr)) else r, tag)
  }

  // A form with a label between two rules.
  function IsindexStep(s: Snapshot): Snapshot {
    var ruled := Voided(WithoutParagraph(Opened(WithoutParagraph(s), Tag(Form, map[]))), Tag(Hr, map[]));
    var labelled := EndStep(Tag(LabelName, map[]), Opened(Reconstructed(ruled), Tag(LabelName, map[])), None);
    EndStep(Tag(Form, map[]), Voided(WithoutParagraph(labelled), Tag(Hr, map[])), Some(NewElement(s.next, Tag(Form, map[]))))
  }

  // In a ruby, without what an implied end tag closes.
  function WithoutImplied(s: Snapshot): Snapshot {
    if InScope(s.open, {Ruby}, Ordinary) then s.(open := s.open[..ImpliedCut(s.open, {})]) else s
  }

  function StartStep(tag: Tag, s: Snapshot, quirks: bool, scripting: bool, form: Option<FormElement>): Snapshot {
    var n := tag.name;
    if OpensNothing(n) then s
    else if IsHeadContent(n) then HeadStep(s, tag)
    else if IsQuietVoid(n) then Voided(s, tag)
    else if IsVoid(n) || n.Input? then Voided(Reconstructed(s), tag)
    else if n.Image? then Voided(Reconstructed(s), tag.(name := Img))
    else if n.Hr? then Voided(WithoutParagraph(s), tag)
    else if n.A? then AnchorStep(s, tag)
    else if n.Nobr? then NobrStep(s, tag)
    else if IsFormatting(n) then Formatted(Reconstructed(s), tag)
    else if IsEmbedded(n) then Marked(Reconstructed(s), tag)
    else if OpensAlone(n) then Opened(WithoutParagraph(s), tag)
    else if IsHeading(n) then Opened(WithoutAHeading(WithoutParagraph(s)), tag)
    else if n.Li? then Opened(WithoutParagraph(WithoutItem(s)), tag)
    else if n.Table? then Opened(if quirks then s else WithoutParagraph(s), tag)
    else if n.Form? then (if form.Some? then s else Opened(WithoutParagraph(s), tag))
    else if n.Isindex? then (if form.Some? then s else IsindexStep(s))
    else if n.Button? then Opened(Reconstructed(WithoutAllButtons(s)), tag)
    else if n.OptionName? || n.Optgroup? then Opened(Reconstructed(WithoutAnOption(s)), tag)
    else if n.Rp? || n.Rt? then Opened(WithoutImplied(s), tag)
    else if n.Xmp? then Opened(Reconstructed(WithoutParagraph(s)), tag)
    else if OpensText(n, scripting) || n.Dd? || n.Dt? then Opened(s, tag)
    else Opened(Reconstructed(s), tag)
  }

  lemma StartStepIs(tag: Tag, s: Snapshot, quirks: bool, scripting: bool, form: Option<FormElement>)
    ensures var n := tag.name;
            StartStep(tag, s, quirks, scripting, form) ==
            if OpensNothing(n) then s
            else if IsHeadContent(n) then HeadStep(s, tag)
            else if IsQuietVoid(n) then Voided(s, tag)
            else if IsVoid(n) || n.Input? then Voided(Reconstructed(s), tag)
            else if n.Image? then Voided(Reconstructed(s), tag.(name := Img))
            else if n.Hr? then Voided(WithoutParagraph(s), tag)
            else if n.A? then AnchorStep(s, tag)
            else if n.Nobr? then NobrStep(s, tag)
            else if IsFormatting(n) then Formatted(Reconstructed(s), tag)
            else if IsEmbedded(n) then Marked(Reconstructed(s), tag)
            else if OpensAlone(n) then Opened(WithoutParagraph(s), tag)
            else if IsHeading(n) then Opened(WithoutAHeading(WithoutParagraph(s)), tag)
            else if n.Li? then Opened(WithoutParagraph(WithoutItem(s)), tag)
            else if n.Table? then Opened(if quirks then s else WithoutParagraph(s), tag)
            else if n.Form? then (if form.Some? then s else Opened(WithoutParagraph(s), tag))
            else if n.Isindex? then (if form.Some? then s else IsindexStep(s))
            else if n.Button? then Opened(Reconstructed(WithoutAllButtons(s)), tag)
            else if n.OptionName? || n.Optgroup? then Opened(Reconstructed(WithoutAnOption(s)), tag)
            else if n.Rp? || n.Rt? then Opened(WithoutImplied(s), tag)
            else if n.Xmp? then Opened(Reconstructed(WithoutParagraph(s)), tag)
            else if OpensText(n, scripting) || n.Dd? || n.Dt? then Opened(s, tag)
            else Opened(Reconstructed(s), tag)
  {
  }

  // ---------------------------------------------------------------------------------------------
  // End tags

  // End tags without rules of their own, or with rules that close one element and those above it.
  predicate ClosesOne(n: Name) {
    !n.Body? && !n.Html? && !n.P? && !n.Br? && !n.Form? && !IsFormatting(n)
  }

  // The form is taken out wherever it is, once implied end tags have closed what they can.
  function WithoutForm(open: Stack, form: Element): Stack {
    var cut := open[..ImpliedCut(open, {})];
    if IndexOf(cut, form) < 0 then cut else Removed(cut, IndexOf(cut, form))
  }

  function ToLastMarker(active: Entries): Entries {
    if LastMarker(active) < 0 then active else active[..LastMarker(active)]
  }

  function WithoutTheForm(s: Snapshot, form: Option<FormElement>): Snapshot {
    if form.Some? && InScope(s.open, {Form}, Ordinary) then s.(open := WithoutForm(s.open, form.value)) else s
  }

  function ClosedOne(s: Snapshot, n: Name): Snapshot {
    var k := ClosingPlace(s.open, n);
    s.(open := CutAt(s.open, k), active := if IsEmbedded(n) && k >= 0 then ToLastMarker(s.active) else s.active)
  }

  // A p that is not in scope is opened and closed; a br is taken for a start tag.
  function EndStep(tag: Tag, s: Snapshot, form: Option<FormElement>): Snapshot {
    var n := tag.name;
    if n.Body? || n.Html? then s
    else if n.P? then (if InScope(s.open, {P}, ButtonScope) then WithoutParagraph(s) else Voided(s, Tag(P, map[])))
    else if n.Br? then Voided(Reconstructed(s), Tag(Br, map[]))
    else if n.Form? then WithoutTheForm(s, form)
    else if IsFormatting(n) then Agency(s, n)
    else ClosedOne(s, n)
  }

  lemma EndStepIs(tag: Tag, s: Snapshot, form: Option<FormElement>)
    ensures var n := tag.name;
            EndStep(tag, s, form) ==
            if n.Body? || n.Html? then s
            else if n.P? then (if InScope(s.open, {P}, ButtonScope) then WithoutParagraph(s) else Voided(s, Tag(P, map[])))
            else if n.Br? then Voided(Reconstructed(s), Tag(Br, map[]))
            else if n.Form? then WithoutTheForm(s, form)
            else if IsFormatting(n) then Agency(s, n)
            else ClosedOne(s, n)
  {
  }

  // ---------------------------------------------------------------------------------------------
  // Any token

  function BodyStep(token: Token, s: Snapshot, quirks: bool, scripting: bool, form: Option<FormElement>): Snapshot {
    match token
    case StartTag(tag) => StartStep(tag, s, quirks, scripting, form)
    case EndTag(tag) => EndStep(tag, s, form)
    case Character(data) => if data == 0 as char then s else Typed(Reconstructed(s), data)
    case Comment(text) => Commented(s, text)
    case Doctype(_) => s
    case EndOfFile => s.(open := [])
  }

  // The form element that is remembered afterwards.
  function FormAfter(token: Token, s: Snapshot, form: Option<FormElement>): Option<FormElement> {
    match token
    case StartTag(tag) =>
      if form.Some? then form else if tag.name.Form? then Some(NewElement(s.next, tag)) else None
    case EndTag(tag) => if tag.name.Form? then None else form
    case _ => form
  }

  function ModeAfter(token: Token, mode: Mode, scripting: bool): Mode {
    match token
    case StartTag(tag) =>
      var n := tag.name;
      if n.Table? then InTable
      else if n.Select? then (if mode.InBody? then InSelect else InSelectInTable)
      else if OpensText(n, scripting) then Text
      else mode
    case EndTag(tag) => if tag.name.Body? then AfterBody else mode
    case _ => mode
  }

  // "In cell" and "in caption" deal with these themselves.
  predicate ReachesBody(mode: Mode, name: Name) {
    && (name.Body? || name.Html? ==> mode.InBody?)
    && (name.Caption? ==> !mode.InCaption?)
    && (IsCell(name) ==> !mode.InCell?)
    && (name.Table? ==> mode.InBody?)
  }

  // "In cell" and "in caption" deal with the start tags of the parts of a table.
  predicate TokenReachesBody(mode: Mode, token: Token) {
    match token
    case StartTag(tag) => IsTablePart(tag.name) ==> mode.InBody?
    case EndTag(tag) => ReachesBody(mode, tag.name)
    case _ => true
  }

  // The tokens with an effect in the mode that `BodyStep` gives: all but those that only the rules for tables
  // know, and the end tag of the root, which is processed again past the body.
  predicate HasStep(mode: Mode, token: Token) {
    match token
    case StartTag(tag) => IsTablePart(tag.name) ==> mode.InBody?
    case EndTag(tag) => !tag.name.Html? && (IsTablePart(tag.name) || tag.name.Table? || tag.name.Body? ==> mode.InBody?)
    case _ => true
  }

  // How far a token that cannot be processed has come: a nobr start tag reconstructs before it fails.
  function FailedStep(token: Token, s: Snapshot): Snapshot {
    if token.StartTag? && token.tag.name.Nobr? then Reconstructed(s) else s
  }

  // What is said of an outcome that is not `Reprocess` besides the state: whether the token counts as ignored.
  predicate Ignores(token: Token, ignored: bool, s: Snapshot) {
    match token
    case EndTag(tag) =>
      && (ClosesOne(tag.name) ==> (ignored <==> ClosingPlace(s.open, tag.name) < 0))
      && (IsFormatting(tag.name) ==> Done(ignored) == RoundsOutcome(8, s, tag.name))
      && (tag.name.Body? ==> !ignored)
    case Character(data) => ignored <==> data == 0 as char
    case _ => true
  }

  /**
   The rules of a body do what `BodyStep` says.  If the token is to be processed again, doing so comes to the
   same; if it fails, nothing but a reconstruction has happened.
   */
  ghost predicate BodyEffect(token: Token, out: Outcome, mode0: Mode, s0: Snapshot, quirks: bool, scripting: bool, form0: Option<FormElement>,
                             mode: Mode, s: Snapshot, form: Option<FormElement>)
  {
    HasStep(mode0, token) ==>
      match out
      case Done(ignored) =>
        && s == BodyStep(token, s0, quirks, scripting, form0) && form == FormAfter(token, s0, form0)
        && mode == ModeAfter(token, mode0, scripting) && Ignores(token, ignored, s0)
      case Failed(_) => s == FailedStep(token, s0) && form == form0 && mode == mode0
      case Reprocess(again) => SameStep(token, mode0, s0, quirks, scripting, form0, again, mode, s, form)
  }

  ghost predicate SameStep(token: Token, mode0: Mode, s0: Snapshot, quirks: bool, scripting: bool, form0: Option<FormElement>,
                           again: Token, mode: Mode, s: Snapshot, form: Option<FormElement>)
  {
    && mode == mode0 && HasStep(mode, again) && ModeAfter(again, mode, scripting) == ModeAfter(token, mode0, scripting)
    && (forall quirky :: BodyStep(again, s, quirky, scripting, form) == BodyStep(token, s0, quirks, scripting, form0))
    && FormAfter(again, s, form) == FormAfter(token, s0, form0)
    && (forall ignored :: Ignores(again, ignored, s) ==> Ignores(token, ignored, s0))
    && form == form0 && !MayFail(again) && !again.Character?
  }

  /** Processed again, the token does what it was to do. */
  lemma EffectLater(token: Token, mode0: Mode, s0: Snapshot, quirks0: bool, scripting: bool, form0: Option<FormElement>,
                    again: Token, mode1: Mode, s1: Snapshot, quirks1: bool, form1: Option<FormElement>,
                    out: Outcome, mode: Mode, s: Snapshot, form: Option<FormElement>)
    requires BodyEffect(token, Reprocess(again), mode0, s0, quirks0, scripting, form0, mode1, s1, form1)
    requires BodyEffect(again, out, mode1, s1, quirks1, scripting, form1, mode, s, form)
    requires !out.Reprocess? && (out.Failed? ==> MayFail(again))
    ensures BodyEffect(token, out, mode0, s0, quirks0, scripting, form0, mode, s, form)
  {
    hide HasStep;
    hide BodyStep;
    hide FormAfter;
    hide ModeAfter;
    hide Ignores;
    hide MayFail;
    hide FailedStep;
  }

  // ---------------------------------------------------------------------------------------------
  // When a token fails

  // A dd or a dt is open with nothing but address, div, p and ordinary elements above it.
  ghost predicate InDefinition(open: Stack) {
    exists i :: 0 <= i < |open| && (open[i].name.Dd? || open[i].name.Dt?) && forall j :: i < j < |open| ==> !EndsSearch(open[j].name)
  }

  // The agency would look before the first entry, for the element of the name.
  predicate AgencyFails(s: Snapshot, name: Name) {
    LooksBefore(s.open, s.active, name)
  }

  /**
   Why a token cannot be processed: the adoption agency would look before the first entry of the list, for
   the end tag of a formatting element, for an a in an a or for a nobr in a nobr; or the token takes a branch
   this model leaves out.
   */
  ghost function FaultOf(mode: Mode, token: Token, s: Snapshot): Option<Fault> {
    match token
    case StartTag(tag) =>
      var n := tag.name;
      if (n.Math? || n.Svg?) && (IsBodyLike(mode) || IsBeforeBody(mode)) then Some(NotModelled)
      else if !IsBodyLike(mode) then None
      else if (n.Dd? || n.Dt?) && (InDefinition(s.open) || InScope(s.open, {P}, ButtonScope)) then Some(NotModelled)
      else if n.A? && AgencyFails(s, A) then Some(BeforeFirstEntry)
      else if n.Nobr? && AgencyFails(Reconstructed(s), Nobr) then Some(BeforeFirstEntry)
      else None
    case EndTag(tag) => if IsBodyLike(mode) && !mode.AfterBody? && IsFormatting(tag.name) && AgencyFails(s, tag.name) then Some(BeforeFirstEntry) else None
    case _ => None
  }

  // An outcome says why the token fails if it does; a token to be processed again fails then if it does now.
  ghost predicate FaultIs(token: Token, out: Outcome, mode0: Mode, s0: Snapshot, mode: Mode, s: Snapshot) {
    match out
    case Done(_) => FaultOf(mode0, token, s0) == None
    case Failed(fault) => FaultOf(mode0, token, s0) == Some(fault)
    case Reprocess(again) => FaultOf(mode, again, s) == FaultOf(mode0, token, s0)
  }

  lemma FaultLater(token: Token, mode0: Mode, s0: Snapshot, again: Token, mode1: Mode, s1: Snapshot, out: Outcome, mode: Mode, s: Snapshot)
    requires FaultIs(token, Reprocess(again), mode0, s0, mode1, s1) && FaultIs(again, out, mode1, s1, mode, s)
    ensures FaultIs(token, out, mode0, s0, mode, s)
  {
    hide FaultOf;
  }

  lemma FaultsAreFew(mode: Mode, token: Token, s: Snapshot)
    ensures FaultOf(mode, token, s).Some? ==> MayFailIn(mode, token)
  {
    hide InDefinition;
    hide InScope;
    hide AgencyFails;
  }

  lemma NoFault(token: Token, out: Outcome, mode0: Mode, s0: Snapshot, mode: Mode, s: Snapshot)
    requires !MayFailIn(mode0, token) && !out.Failed? && (out.Reprocess? ==> !MayFailIn(mode, out.token))
    ensures FaultIs(token, out, mode0, s0, mode, s)
  {
    FaultsAreFew(mode0, token, s0);
    if out.Reprocess? {
      FaultsAreFew(mode, out.token, s);
    }
    hide FaultOf;
    hide MayFailIn;
  }

  // The list is empty: the agency finds no entry.
  lemma NothingToAdopt(open: Stack, name: Name)
    ensures !LooksBefore(open, [], name)
  {
  }

  // The token starts the body: nothing in it can fail but what is left out.
  lemma FaultInNewBody(token: Token, open: Stack, t: Tree, next: NodeId, s0: Snapshot)
    requires |open| == 2 && open[0].name.Html? && open[1].name.Body?
    ensures FaultOf(InBody, token, Snapshot(open, [], t, next)) == FaultOf(AfterHead, token, s0)
  {
    var s := Snapshot(open, [], t, next);
    assert !InScope(open, {P}, ButtonScope) by {
      assert forall i :: 0 <= i < |open| ==> open[i].name !in {P};
    }
    assert !InDefinition(open);
    assert Reconstructed(s).active == [];
    forall name
      ensures !AgencyFails(s, name) && !AgencyFails(Reconstructed(s), name)
    {
      NothingToAdopt(open, name);
      NothingToAdopt(Reconstructed(s).open, name);
    }
    hide InScope;
    hide InDefinition;
    hide AgencyFails;
    hide Reconstructed;
  }
}
