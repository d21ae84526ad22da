/**
 What the start tags of a body come to, said of the stack, the list and the tree alone: what is closed for the
 new element, what is opened again, and where it goes.
 */
module HtmlStartTags {
  import opened Wrappers
  import opened HtmlNames
  import opened HtmlStack
  import opened HtmlFormatting
  import opened HtmlTree
  import opened HtmlState
  import opened HtmlAdoption
  import opened HtmlBody
  import opened HtmlEndTags

  // ---------------------------------------------------------------------------------------------
  // Where a new element goes

  // The element is opened on the stack `base`, as the last child of the top of that, and nothing else is done.
  predicate OpensOn(s: Snapshot, base: Stack, tag: Tag, r: Snapshot) {
    var e := Element(s.next, tag.name, tag.attributes);
    && base != [] && r.open == base + [e] && r.active == s.active && r.next == s.next + 1
    && r.tree == Grown(s.tree, Top(base).id, s.next, ElementNode(e))
  }

  // The element becomes the last child of the current node and does not stay open.
  predicate PutsOn(s: Snapshot, base: Stack, tag: Tag, r: Snapshot) {
    var e := Element(s.next, tag.name, tag.attributes);
    && base != [] && r.open == base && r.active == s.active && r.next == s.next + 1
    && r.tree == Grown(s.tree, Top(base).id, s.next, ElementNode(e))
  }

  lemma OpenedOn(s: Snapshot, base: Stack, tag: Tag)
    requires base != []
    ensures OpensOn(s, base, tag, Opened(s.(open := base), tag)) && PutsOn(s, base, tag, Voided(s.(open := base), tag))
  {
    hide Grown;
  }

  // The stack without the p that is in button scope, and what is above it.
  ghost predicate LosesParagraph(open: Stack, base: Stack) {
    && (forall k :: InScopeAt(open, k, {P}, ButtonScope) ==> base == open[..k])
    && ((forall k :: !InScopeAt(open, k, {P}, ButtonScope)) ==> base == open)
  }

  lemma ParagraphLost(open: Stack, base: Stack)
    requires LosesParagraph(open, base)
    ensures WithoutP(open) == base
  {
    ScopeAt(open, {P}, ButtonScope);
    hide InScope;
    hide Topmost;
    hide InScopeAt;
  }

  lemma ParagraphStep(s: Snapshot, base: Stack)
    requires LosesParagraph(s.open, base)
    ensures WithoutParagraph(s) == s.(open := base)
  {
    hide WithoutP;
    hide LosesParagraph;
    ParagraphLost(s.open, base);
  }

  // ---------------------------------------------------------------------------------------------
  // Start tags that close a p

  /** A block closes the p in button scope and is opened on what is left. */
  lemma StartOfBlock(tag: Tag, s: Snapshot, quirks: bool, scripting: bool, form: Option<FormElement>, base: Stack)
    requires tag.name in {Address, Article, Aside, Blockquote, Center, Details, Dialog, Dir, Div, Dl, Fieldset, Figcaption, Figure, Footer,
                          Header, Hgroup, Listing, MainName, Menu, Nav, Ol, P, Plaintext, Pre, Section, Summary, Ul}
    requires LosesParagraph(s.open, base) && base != []
    ensures OpensOn(s, base, tag, StartStep(tag, s, quirks, scripting, form))
  {
    hide *;
    BlockStarts(tag, s, quirks, scripting, form);
    ParagraphStep(s, base);
    OpenedOn(s, base, tag);
  }

  lemma BlockStarts(tag: Tag, s: Snapshot, quirks: bool, scripting: bool, form: Option<FormElement>)
    requires tag.name in {Address, Article, Aside, Blockquote, Center, Details, Dialog, Dir, Div, Dl, Fieldset, Figcaption, Figure, Footer,
                          Header, Hgroup, Listing, MainName, Menu, Nav, Ol, P, Plaintext, Pre, Section, Summary, Ul}
    ensures StartStep(tag, s, quirks, scripting, form) == Opened(WithoutParagraph(s), tag)
  {
    hide *;
    StartStepIs(tag, s, quirks, scripting, form);
    BlockKind(tag.name);
    BlockIsNoVoid(tag.name);
  }

  lemma BlockKind(n: Name)
    requires n in {Address, Article, Aside, Blockquote, Center, Details, Dialog, Dir, Div, Dl, Fieldset, Figcaption, Figure, Footer,
                   Header, Hgroup, Listing, MainName, Menu, Nav, Ol, P, Plaintext, Pre, Section, Summary, Ul}
    ensures OpensAlone(n) && !IsFormatting(n) && !IsEmbedded(n)
    ensures !n.Input? && !n.Image? && !n.Hr? && !n.A? && !n.Nobr?
  {
  }

  lemma BlockIsNoVoid(n: Name)
    requires n in {Address, Article, Aside, Blockquote, Center, Details, Dialog, Dir, Div, Dl, Fieldset, Figcaption, Figure, Footer,
                   Header, Hgroup, Listing, MainName, Menu, Nav, Ol, P, Plaintext, Pre, Section, Summary, Ul}
    ensures !OpensNothing(n) && !IsHeadContent(n) && !IsQuietVoid(n) && !IsVoid(n)
  {
  }

  /** So do a form, unless one is remembered already, and a table, unless in quirks mode; a rule does, and does not stay open. */
  lemma StartOfForm(tag: Tag, s: Snapshot, quirks: bool, scripting: bool, form: Option<FormElement>, base: Stack)
    requires tag.name in {Form, Table, Hr} && LosesParagraph(s.open, base) && base != [] && s.open != []
    ensures var r := StartStep(tag, s, quirks, scripting, form);
            if tag.name == Hr then PutsOn(s, base, tag, r)
            else if tag.name == Form && form.Some? then r == s
            else if tag.name == Table && quirks then OpensOn(s, s.open, tag, r)
            else OpensOn(s, base, tag, r)
  {
    hide *;
    StartStepIs(tag, s, quirks, scripting, form);
    FormKind(tag.name);
    ParagraphStep(s, base);
    OpenedOn(s, base, tag);
    OpenedOn(s, s.open, tag);
  }

  lemma FormKind(n: Name)
    requires n in {Form, Table, Hr}
    ensures !OpensNothing(n) && !IsHeadContent(n) && !IsQuietVoid(n) && !IsVoid(n) && !n.Input? && !n.Image? && !n.A? && !n.Nobr?
    ensures !IsFormatting(n) && !IsEmbedded(n) && !OpensAlone(n) && !IsHeading(n) && !n.Li?
  {
  }

  /** A heading also closes a heading that is then the current node. */
  lemma StartOfHeading(tag: Tag, s: Snapshot, quirks: bool, scripting: bool, form: Option<FormElement>, base: Stack)
    requires tag.name in {H1, H2, H3, H4, H5, H6} && LosesParagraph(s.open, base) && base != []
    ensures if base[|base| - 1].name in {H1, H2, H3, H4, H5, H6}
            then base[..|base| - 1] != [] ==> OpensOn(s, base[..|base| - 1], tag, StartStep(tag, s, quirks, scripting, form))
            else OpensOn(s, base, tag, StartStep(tag, s, quirks, scripting, form))
  {
    hide *;
    HeadingStarts(tag, s, quirks, scripting, form);
    ParagraphStep(s, base);
    HeadingLost(s.(open := base));
    if base[..|base| - 1] != [] {
      OpenedOn(s, base[..|base| - 1], tag);
    }
    OpenedOn(s, base, tag);
  }

  lemma HeadingStarts(tag: Tag, s: Snapshot, quirks: bool, scripting: bool, form: Option<FormElement>)
    requires tag.name in {H1, H2, H3, H4, H5, H6}
    ensures StartStep(tag, s, quirks, scripting, form) == Opened(WithoutAHeading(WithoutParagraph(s)), tag)
  {
    hide *;
    StartStepIs(tag, s, quirks, scripting, form);
    HeadingKind(tag.name);
  }

  lemma HeadingKind(n: Name)
    requires n in {H1, H2, H3, H4, H5, H6}
    ensures !OpensNothing(n) && !IsHeadContent(n) && !IsQuietVoid(n) && !IsVoid(n) && !n.Input? && !n.Image? && !n.Hr? && !n.A? && !n.Nobr?
    ensures !IsFormatting(n) && !IsEmbedded(n) && !OpensAlone(n) && IsHeading(n)
  {
  }

  lemma HeadingLost(s: Snapshot)
    requires s.open != []
    ensures WithoutAHeading(s) ==
            if s.open[|s.open| - 1].name in {H1, H2, H3, H4, H5, H6} then s.(open := s.open[..|s.open| - 1]) else s
  {
  }

  // ---------------------------------------------------------------------------------------------
  // List items

  ghost predicate LosesListItem(open: Stack, base: Stack) {
    && (forall k :: ListItemAt(open, k) ==> base == open[..k])
    && ((forall k :: !ListItemAt(open, k)) ==> base == open)
  }

  lemma ListItemLost(open: Stack, base: Stack)
    requires LosesListItem(open, base)
    ensures WithoutLi(open) == base
  {
    ListItemIs(open);
    hide Topmost;
    hide InListItem;
    hide ListItemAt;
  }

  /**
   A list item closes the innermost open one, if only address, div, p and elements that are not special are in
   between, and then the p in button scope; so it never nests in one like that.
   */
  lemma StartOfListItem(tag: Tag, s: Snapshot, quirks: bool, scripting: bool, form: Option<FormElement>, rest: Stack, base: Stack)
    requires tag.name == Li && LosesListItem(s.open, rest) && LosesParagraph(rest, base) && base != []
    ensures OpensOn(s, base, tag, StartStep(tag, s, quirks, scripting, form))
    ensures forall k :: ListItemAt(s.open, k) ==> 0 <= k < |s.open| && base <= s.open[..k]
  {
    hide *;
    StartStepIs(tag, s, quirks, scripting, form);
    ListItemKind();
    ListItemLost(s.open, rest);
    ItemStep(s, rest);
    ParagraphStep(s.(open := rest), base);
    OpenedOn(s, base, tag);
    ParagraphLost(rest, base);
    WithoutPIsPrefix(rest);
    LostAt(s.open, rest);
  }

  lemma LostAt(open: Stack, rest: Stack)
    requires LosesListItem(open, rest)
    ensures forall k :: ListItemAt(open, k) ==> 0 <= k < |open| && rest == open[..k]
  {
  }

  lemma ItemStep(s: Snapshot, rest: Stack)
    requires WithoutLi(s.open) == rest
    ensures WithoutItem(s) == s.(open := rest)
  {
    hide WithoutLi;
  }

  lemma ListItemKind()
    ensures !OpensNothing(Li) && !IsHeadContent(Li) && !IsQuietVoid(Li) && !IsVoid(Li)
    ensures !IsFormatting(Li) && !IsEmbedded(Li) && !OpensAlone(Li) && !IsHeading(Li)
  {
  }

  lemma WithoutPIsPrefix(open: Stack)
    ensures WithoutP(open) <= open
  {
    hide Topmost;
  }

  // ---------------------------------------------------------------------------------------------
  // Opening formatting elements again

  // From here on the entries are elements that are not open; what is before it is a marker, open, or nothing.
  predicate ReopensAt(active: Entries, open: Stack, k: nat) {
    && k <= |active| && (forall p :: k <= p < |active| ==> active[p].Formatting? && active[p].element !in open)
    && (k > 0 ==> active[k - 1].Marker? || active[k - 1].element in open)
  }

  lemma ReopensFrom(active: Entries, open: Stack, k: nat)
    requires ReopensAt(active, open, k)
    ensures ReopenFrom(active, open) == k
  {
    hide ReopenFrom;
    var m := ReopenFrom(active, open);
    assert m > 0 ==> active[m - 1].Marker? || active[m - 1].element in open;
    assert k > 0 ==> active[k - 1].Marker? || active[k - 1].element in open;
  }

  /**
   The i-th of the closed entries at the end of the list gets a new element of its own name and attributes, which
   is the i-th new one on the stack and a child of the one before; all else stays as it is.
   */
  lemma Reconstruction(s: Snapshot, k: nat)
    requires s.open != [] && ReopensAt(s.active, s.open, k)
    requires Top(s.open).id in s.tree && forall x :: x in s.tree ==> x < s.next
    ensures var r, n := Reconstructed(s), |s.active| - k;
            && |r.open| == |s.open| + n && r.open[..|s.open|] == s.open && |r.active| == |s.active| && r.active[..k] == s.active[..k]
            && r.next == s.next + n
    ensures var r := Reconstructed(s);
            forall p :: k <= p < |s.active| ==>
              var entry, id := s.active[p], s.next + p - k;
              var e := Element(id, entry.tag.name, entry.tag.attributes);
              && r.open[|s.open| + p - k] == e && r.active[p] == Formatting(entry.id, e, entry.tag)
              && id in r.tree && r.tree[id].content == ElementNode(e)
              && r.tree[id].parent == Some(if p == k then s.open[|s.open| - 1].id else id - 1)
  {
    hide *;
    ReopensFrom(s.active, s.open, k);
    ClosedEntries(s.active, s.open, k);
    ReconstructedIs(s, k);
    EntriesReopened(s.active, k, s.next);
    var es := NewElements(s.active, k, |s.active|, s.next);
    TopIs(s.open);
    ChainedNodes(s.tree, Top(s.open).id, es, s.next);
  }

  lemma TopIs(open: Stack)
    requires open != []
    ensures Top(open) == open[|open| - 1]
  {
  }

  lemma ClosedEntries(active: Entries, open: Stack, k: nat)
    requires ReopensAt(active, open, k)
    ensures k <= |active| && forall p :: k <= p < |active| ==> active[p].Formatting?
  {
  }

  lemma ReconstructedIs(s: Snapshot, k: nat)
    requires s.open != [] && ReopenFrom(s.active, s.open) == k <= |s.active| && forall p :: k <= p < |s.active| ==> s.active[p].Formatting?
    ensures var es := NewElements(s.active, k, |s.active|, s.next);
            Reconstructed(s) == Snapshot(s.open + es, Reopened(s.active, k, |s.active|, s.next), Chained(s.tree, Top(s.open).id, es), s.next + |es|)
  {
    hide ReopenFrom;
    hide NewElements;
    hide Reopened;
    hide Chained;
  }

  lemma EntriesReopened(active: Entries, k: nat, next: NodeId)
    requires k <= |active| && forall p :: k <= p < |active| ==> active[p].Formatting?
    ensures |NewElements(active, k, |active|, next)| == |active| - k && |Reopened(active, k, |active|, next)| == |active|
    ensures Reopened(active, k, |active|, next)[..k] == active[..k]
    ensures forall i :: 0 <= i < |active| - k ==> NewElements(active, k, |active|, next)[i].id == next + i
    ensures forall p :: k <= p < |active| ==>
              var e := Element(next + p - k, active[p].tag.name, active[p].tag.attributes);
              && NewElements(active, k, |active|, next)[p - k] == e
              && Reopened(active, k, |active|, next)[p] == Formatting(active[p].id, e, active[p].tag)
  {
  }

  lemma {:induction false} ChainedNodes(t: Tree, top: NodeId, es: Stack, next: NodeId)
    requires top in t && (forall x :: x in t ==> x < next) && forall i :: 0 <= i < |es| ==> es[i].id == next + i
    ensures var u := Chained(t, top, es);
            && (forall x :: x in u <==> x in t || next <= x < next + |es|)
            && forall x :: next <= x < next + |es| ==>
                 u[x].content == ElementNode(es[x - next]) && u[x].parent == Some(if x == next then top else x - 1)
  {
    hide *;
    ChainedStep(t, top, es);
    var n := |es|;
    if n > 0 {
      assert forall i :: 0 <= i < n - 1 ==> es[..n - 1][i] == es[i];
      ChainedNodes(t, top, es[..n - 1], next);
      var v, place := Chained(t, top, es[..n - 1]), if n == 1 then top else es[n - 2].id;
      assert place in v && next + n - 1 !in v && es[n - 1].id == next + n - 1;
      GrownNodes(v, place, es[n - 1].id, ElementNode(es[n - 1]));
    }
  }

  lemma ChainedStep(t: Tree, top: NodeId, es: Stack)
    ensures Chained(t, top, es) ==
            if es == [] then t
            else Grown(Chained(t, top, es[..|es| - 1]), if |es| == 1 then top else es[|es| - 2].id, es[|es| - 1].id, ElementNode(es[|es| - 1]))
  {
    hide Grown;
  }

  lemma GrownNodes(t: Tree, place: NodeId, id: NodeId, content: Content)
    requires place in t && id !in t
    ensures Grown(t, place, id, content).Keys == t.Keys + {id}
    ensures Grown(t, place, id, content)[id] == Node(content, Some(place), [])
    ensures forall x :: x in t ==> Grown(t, place, id, content)[x].parent == t[x].parent && Grown(t, place, id, content)[x].content == t[x].content
    ensures Grown(t, place, id, content)[place].children == t[place].children + [id]
  {
  }

  // ---------------------------------------------------------------------------------------------
  // Start tags that close nothing

  /** Elements without contents, after reconstruction. */
  lemma StartOfVoid(tag: Tag, s: Snapshot, quirks: bool, scripting: bool, form: Option<FormElement>)
    requires tag.name in {Area, Br, Embed, Image, Img, Input, Keygen, Wbr} && s.open != []
    ensures var r := Reconstructed(s);
            PutsOn(r, r.open, if tag.name == Image then Tag(Img, tag.attributes) else tag, StartStep(tag, s, quirks, scripting, form))
  {
    hide *;
    StartStepIs(tag, s, quirks, scripting, form);
    VoidKind(tag.name);
    StillOpen(s);
    OpenedOn(Reconstructed(s), Reconstructed(s).open, if tag.name == Image then Tag(Img, tag.attributes) else tag);
  }

  lemma VoidKind(n: Name)
    requires n in {Area, Br, Embed, Image, Img, Input, Keygen, Wbr}
    ensures !OpensNothing(n) && !IsHeadContent(n) && !IsQuietVoid(n) && (IsVoid(n) || n.Input? || n.Image?) && (n.Image? ==> !IsVoid(n))
  {
  }

  lemma StillOpen(s: Snapshot)
    ensures s.open <= Reconstructed(s).open
  {
    hide Chained;
  }

  /** Elements without contents, as they come. */
  lemma StartOfQuietVoid(tag: Tag, s: Snapshot, quirks: bool, scripting: bool, form: Option<FormElement>)
    requires tag.name in {Base, Basefont, Bgsound, Link, Menuitem, Meta, Param, Source, Track} && s.open != []
    ensures PutsOn(s, s.open, tag, StartStep(tag, s, quirks, scripting, form))
  {
    hide *;
    StartStepIs(tag, s, quirks, scripting, form);
    QuietVoidKind(tag.name);
    HeadStepIs(s, tag);
    OpenedOn(s, s.open, tag);
  }

  lemma QuietVoidKind(n: Name)
    requires n in {Base, Basefont, Bgsound, Link, Menuitem, Meta, Param, Source, Track}
    ensures !OpensNothing(n) && (IsHeadContent(n) || IsQuietVoid(n)) && (IsHeadContent(n) ==> IsVoidInHead(n))
  {
  }

  lemma HeadStepIs(s: Snapshot, tag: Tag)
    ensures HeadStep(s, tag) == if IsVoidInHead(tag.name) then Voided(s, tag) else Opened(s, tag)
  {
    hide Voided;
    hide Opened;
  }

  /** Elements that hold text only. */
  lemma StartOfText(tag: Tag, s: Snapshot, mode: Mode, quirks: bool, scripting: bool, form: Option<FormElement>)
    requires tag.name in {Iframe, Noembed, Noframes, Script, Style, Textarea, Title} || (tag.name == Noscript && scripting)
    requires s.open != []
    ensures OpensOn(s, s.open, tag, StartStep(tag, s, quirks, scripting, form))
  {
    hide *;
    StartStepIs(tag, s, quirks, scripting, form);
    TextKind(tag.name, scripting);
    HeadStepIs(s, tag);
    OpenedOn(s, s.open, tag);
  }

  lemma TextKind(n: Name, scripting: bool)
    requires n in {Iframe, Noembed, Noframes, Script, Style, Textarea, Title} || (n == Noscript && scripting)
    ensures !OpensNothing(n) && !IsVoidInHead(n) && !IsQuietVoid(n) && !IsVoid(n) && !n.Input? && !n.Image? && !n.Hr? && !n.A? && !n.Nobr?
    ensures !IsFormatting(n) && !IsEmbedded(n) && !OpensAlone(n) && !IsHeading(n) && !n.Li? && OpensText(n, scripting)
  {
  }

  /** Which mode a start tag in a body leads to. */
  lemma ModeOfStart(tag: Tag, mode: Mode, scripting: bool)
    ensures ModeAfter(StartTag(tag), mode, scripting) ==
            if tag.name in {Iframe, Noembed, Noframes, Script, Style, Textarea, Title, Xmp} || (tag.name == Noscript && scripting) then Text
            else if tag.name == Table then InTable
            else if tag.name == Select then (if mode == InBody then InSelect else InSelectInTable)
            else mode
  {
    hide *;
    ModeAfterStart(tag, mode, scripting);
    TextNames(tag.name, scripting);
  }

  lemma ModeAfterStart(tag: Tag, mode: Mode, scripting: bool)
    ensures ModeAfter(StartTag(tag), mode, scripting) ==
            if tag.name == Table then InTable
            else if tag.name == Select then (if mode == InBody then InSelect else InSelectInTable)
            else if OpensText(tag.name, scripting) then Text
            else mode
  {
    hide OpensText;
  }

  lemma TextNames(n: Name, scripting: bool)
    ensures OpensText(n, scripting) <==>
            n in {Iframe, Noembed, Noframes, Script, Style, Textarea, Title, Xmp} || (n == Noscript && scripting)
  {
  }

  // The element is opened on the stack as it is and gets an entry at the end of the list.
  predicate FormatsOn(r: Snapshot, tag: Tag, q: Snapshot) {
    var e := Element(r.next, tag.name, tag.attributes);
    && OpensOn(r, r.open, tag, q.(active := r.active, next := r.next + 1))
    && q.active == Entered(r.active, Formatting(r.next + 1, e, tag)) && q.next == r.next + 2
  }

  /** A formatting element is opened on the reconstructed stack and gets an entry. */
  lemma StartOfFormatting(tag: Tag, s: Snapshot, quirks: bool, scripting: bool, form: Option<FormElement>)
    requires tag.name in {B, Big, Code, Em, Font, I, S, Small, Strike, Strong, Tt, U} && s.open != []
    ensures FormatsOn(Reconstructed(s), tag, StartStep(tag, s, quirks, scripting, form))
  {
    hide *;
    StartStepIs(tag, s, quirks, scripting, form);
    FormattingKind(tag.name);
    StillOpen(s);
    FormattedParts(Reconstructed(s), tag);
  }

  lemma FormattedParts(r: Snapshot, tag: Tag)
    requires r.open != []
    ensures FormatsOn(r, tag, Formatted(r, tag))
  {
    hide Entered;
    hide Grown;
  }

  /** An a without an earlier one after the last marker is like any other formatting element. */
  lemma StartOfFirstAnchor(tag: Tag, s: Snapshot, quirks: bool, scripting: bool, form: Option<FormElement>)
    requires tag.name == A && s.open != [] && forall p :: !IsLastEntry(s.active, p, A)
    ensures FormatsOn(Reconstructed(s), tag, StartStep(tag, s, quirks, scripting, form))
  {
    hide *;
    StartStepIs(tag, s, quirks, scripting, form);
    AnchorKind();
    NoEntryIs(s.active, A);
    AnchorStepIs(s, tag);
    StillOpen(s);
    FormattedParts(Reconstructed(s), tag);
  }

  /**
   An a in an a: the agency ends the earlier one, whose element is neither open nor in the list any more when the
   new one has been opened.
   */
  lemma StartOfAnchor(tag: Tag, s: Snapshot, rank: map<NodeId, real>, quirks: bool, scripting: bool, form: Option<FormElement>, p: nat)
    requires tag.name == A && InFlow(s, rank) && !LooksBefore(s.open, s.active, A)
    requires IsLastEntry(s.active, p, A) && p < |s.active| && s.active[p].Formatting?
    ensures FormatsOn(Reconstructed(Rounds(8, s, A)), tag, StartStep(tag, s, quirks, scripting, form))
    ensures s.active[p].element !in StartStep(tag, s, quirks, scripting, form).open
    ensures !InList(s.active[p].element, StartStep(tag, s, quirks, scripting, form).active)
  {
    hide *;
    StartStepIs(tag, s, quirks, scripting, form);
    AnchorKind();
    LastEntryIs(s.active, p, A);
    AnchorStepIs(s, tag);
    var q, a := Rounds(8, s, A), s.active[p].element;
    AnchorEnds(s, rank, p);
    StillOpen(q);
    FormattedParts(Reconstructed(q), tag);
    ReconstructOnlyAdds(q);
    FormatOnlyAdds(Reconstructed(q), tag);
    OnlyNewThen(q, Reconstructed(q), Formatted(Reconstructed(q), tag));
    StillGone(a, s, q, Formatted(Reconstructed(q), tag));
  }

  lemma AnchorStepIs(s: Snapshot, tag: Tag)
    ensures var k := LastNamed(s.active, A);
            k < |s.active| && (k >= 0 ==> s.active[k].Formatting?) &&
            AnchorStep(s, tag) == Formatted(Reconstructed(if k < 0 then s else WithoutElement(Rounds(8, s, A), s.active[k].element)), tag)
  {
    hide LastNamed;
    hide WithoutElement;
    hide Rounds;
  }

  lemma AnchorKind()
    ensures !OpensNothing(A) && !IsHeadContent(A) && !IsQuietVoid(A) && !IsVoid(A) && IsFormatting(A)
  {
  }

  // After the agency there is nothing left to take out.
  lemma AnchorEnds(s: Snapshot, rank: map<NodeId, real>, k: nat)
    requires InFlow(s, rank) && IsLastEntry(s.active, k, A) && !LooksBefore(s.open, s.active, A)
    ensures k < |s.active| && s.active[k].Formatting?
    ensures var q, a := Rounds(8, s, A), s.active[k].element;
            && a !in q.open && !InList(a, q.active) && WithoutElement(q, a) == q && q.open != [] && a.id < s.next <= q.next
  {
    hide *;
    LastEntryBounds(s.active, k, A);
    AnchorKind();
    FlowIsGrounded(s, rank);
    FlowNames(s, rank);
    AgencyEnds(8, s, rank, A, k);
    AgencyFailsIff(8, s, A);
    RoundsOnlyAdd(8, s, A);
    RoundsKeep(8, s, rank, A);
    EntryIsOld(s, rank, k);
    OnlyNewGrows(s, Rounds(8, s, A));
    KeptIsOpen(s, Rounds(8, s, A));
    NothingToTakeOut(Rounds(8, s, A), s.active[k].element);
  }

  lemma FlowNames(s: Snapshot, rank: map<NodeId, real>)
    requires InFlow(s, rank)
    ensures OwnNames(s.active)
  {
    hide Balanced;
    hide Lineage;
    hide Ark;
    hide ZoneOf;
  }

  lemma EntryIsOld(s: Snapshot, rank: map<NodeId, real>, k: nat)
    requires InFlow(s, rank) && k < |s.active| && s.active[k].Formatting?
    ensures s.active[k].element.id < s.next
  {
    hide Balanced;
    hide Lineage;
    hide WellFormed;
    hide ZoneOf;
  }

  lemma OnlyNewGrows(s: Snapshot, r: Snapshot)
    requires OnlyNew(s, r)
    ensures s.next <= r.next
  {
    hide InList;
  }

  lemma KeptIsOpen(s: Snapshot, r: Snapshot)
    requires s.open != [] && KeptBy(s, r)
    ensures r.open != []
  {
    hide Reaches;
    hide Acyclic;
    hide Linked;
    hide Tags;
  }

  lemma NothingToTakeOut(s: Snapshot, e: Element)
    requires e !in s.open && !InList(e, s.active)
    ensures WithoutElement(s, e) == s
  {
    hide EntryOf;
    hide IndexOf;
    hide InList;
  }

  lemma ReconstructOnlyAdds(s: Snapshot)
    ensures OnlyNew(s, Reconstructed(s))
  {
    hide Chained;
    hide ReopenFrom;
    var first := ReopenFrom(s.active, s.open);
    var list := Reopened(s.active, first, |s.active|, s.next);
    forall e | InList(e, list)
      ensures InList(e, s.active) || s.next <= e.id
    {
      var p :| 0 <= p < |list| && list[p].Formatting? && list[p].element == e;
      assert list[p].element == s.active[p].element || list[p].element.id >= s.next;
    }
  }

  lemma FormatOnlyAdds(s: Snapshot, tag: Tag)
    ensures OnlyNew(s, Formatted(s, tag))
  {
    hide *;
    var e := Element(s.next, tag.name, tag.attributes);
    FormattedStack(s, tag);
    ListOfEntered(s.active, Formatting(s.next + 1, e, tag));
    OnlyNewIf(s, Formatted(s, tag), e);
  }

  lemma FormattedStack(s: Snapshot, tag: Tag)
    ensures var e, r := Element(s.next, tag.name, tag.attributes), Formatted(s, tag);
            && r.open == s.open + [e] && r.active == Entered(s.active, Formatting(s.next + 1, e, tag)) && r.next == s.next + 2
  {
    hide Entered;
    hide Grown;
  }

  lemma OnlyNewIf(s: Snapshot, r: Snapshot, e: Element)
    requires r.open == s.open + [e] && e.id == s.next <= r.next
    requires forall x :: InList(x, r.active) ==> InList(x, s.active) || x == e
    ensures OnlyNew(s, r)
  {
    hide InList;
  }

  lemma ListOfEntered(active: Entries, entry: Entry)
    requires entry.Formatting?
    ensures forall x :: InList(x, Entered(active, entry)) ==> InList(x, active) || x == entry.element
  {
    hide Kin;
    hide Earliest;
    hide Removed;
    var f := FamilyOf(entry.element);
    var rest := if Kin(active, f) == 3 then Removed(active, Earliest(active, f)) else active;
    if Kin(active, f) == 3 {
      ListOfRemoved(active, Earliest(active, f));
    }
    assert forall p :: 0 <= p < |rest| + 1 ==> (rest + [entry])[p] == if p < |rest| then rest[p] else entry;
  }

  /** A nobr in a nobr: after reconstruction, one in scope is ended by the agency, and formatting is reconstructed again. */
  lemma StartOfNobr(tag: Tag, s: Snapshot, quirks: bool, scripting: bool, form: Option<FormElement>)
    requires tag.name == Nobr && s.open != []
    ensures var r, t := Reconstructed(s), StartStep(tag, s, quirks, scripting, form);
            && ((forall k :: !InScopeAt(r.open, k, {Nobr}, Ordinary)) ==> FormatsOn(r, tag, t))
            && ((exists k :: InScopeAt(r.open, k, {Nobr}, Ordinary)) && Rounds(8, r, Nobr).open != [] ==>
                  FormatsOn(Reconstructed(Rounds(8, r, Nobr)), tag, t))
  {
    hide *;
    StartStepIs(tag, s, quirks, scripting, form);
    NobrKind();
    NobrStepIs(s, tag);
    var r := Reconstructed(s);
    ScopeAt(r.open, {Nobr}, Ordinary);
    StillOpen(s);
    StillOpen(Rounds(8, r, Nobr));
    FormattedParts(r, tag);
    if Rounds(8, r, Nobr).open != [] {
      FormattedParts(Reconstructed(Rounds(8, r, Nobr)), tag);
    }
  }

  lemma NobrKind()
    ensures !OpensNothing(Nobr) && !IsHeadContent(Nobr) && !IsQuietVoid(Nobr) && !IsVoid(Nobr)
  {
  }

  lemma NobrStepIs(s: Snapshot, tag: Tag)
    ensures var r := Reconstructed(s);
            NobrStep(s, tag) == Formatted(if InScope(r.open, {Nobr}, Ordinary) then Reconstructed(Rounds(8, r, Nobr)) else r, tag)
  {
    hide Reconstructed;
    hide Formatted;
    hide InScope;
    hide Rounds;
  }

  lemma FormattingKind(n: Name)
    requires n in {B, Big, Code, Em, Font, I, S, Small, Strike, Strong, Tt, U}
    ensures !OpensNothing(n) && !IsHeadContent(n) && !IsQuietVoid(n) && !IsVoid(n) && !n.Input? && !n.Image? && !n.Hr? && !n.A? && !n.Nobr?
    ensures IsFormatting(n)
  {
  }

  /** An applet, marquee or object is opened there with a marker in the list. */
  lemma StartOfEmbedded(tag: Tag, s: Snapshot, quirks: bool, scripting: bool, form: Option<FormElement>)
    requires tag.name in {Applet, Marquee, ObjectName} && s.open != []
    ensures var r, q := Reconstructed(s), StartStep(tag, s, quirks, scripting, form);
            && OpensOn(r, r.open, tag, q.(active := r.active, next := r.next + 1))
            && q.active == r.active + [Marker(r.next + 1)] && q.next == r.next + 2
  {
    hide *;
    StartStepIs(tag, s, quirks, scripting, form);
    EmbeddedKind(tag.name);
    StillOpen(s);
    MarkedParts(Reconstructed(s), tag);
  }

  lemma MarkedParts(r: Snapshot, tag: Tag)
    requires r.open != []
    ensures var q := Marked(r, tag);
            && OpensOn(r, r.open, tag, q.(active := r.active, next := r.next + 1))
            && q.active == r.active + [Marker(r.next + 1)] && q.next == r.next + 2
  {
    hide Grown;
  }

  lemma EmbeddedKind(n: Name)
    requires n in {Applet, Marquee, ObjectName}
    ensures !OpensNothing(n) && !IsHeadContent(n) && !IsQuietVoid(n) && !IsVoid(n) && !n.Input? && !n.Image? && !n.Hr? && !n.A? && !n.Nobr?
    ensures !IsFormatting(n) && IsEmbedded(n)
  {
  }

  /** Start tags with no effect, wherever in a body they come. */
  lemma StartOfNothing(tag: Tag, s: Snapshot, quirks: bool, scripting: bool, form: Option<FormElement>)
    requires tag.name in {Body, Caption, Col, Colgroup, Frame, Frameset, Head, Html, Tbody, Td, Tfoot, Th, Thead, Tr}
    ensures StartStep(tag, s, quirks, scripting, form) == s
  {
    hide *;
    StartStepIs(tag, s, quirks, scripting, form);
    NothingKind(tag.name);
  }

  lemma NothingKind(n: Name)
    requires n in {Body, Caption, Col, Colgroup, Frame, Frameset, Head, Html, Tbody, Td, Tfoot, Th, Thead, Tr}
    ensures OpensNothing(n)
  {
  }

  /** Every other start tag reconstructs and opens its element there. */
  lemma StartOfOther(tag: Tag, s: Snapshot, quirks: bool, scripting: bool, form: Option<FormElement>)
    requires tag.name !in {Address, Article, Aside, Blockquote, Center, Details, Dialog, Dir, Div, Dl, Fieldset, Figcaption, Figure, Footer,
                           Header, Hgroup, Listing, MainName, Menu, Nav, Ol, P, Plaintext, Pre, Section, Summary, Ul}
    requires tag.name !in {Area, Base, Basefont, Bgsound, Br, Embed, Hr, Image, Img, Input, Keygen, Link, Menuitem, Meta, Param, Source, Track, Wbr}
    requires tag.name !in {Body, Caption, Col, Colgroup, Frame, Frameset, Head, Html, Tbody, Td, Tfoot, Th, Thead, Tr}
    requires tag.name !in {A, B, Big, Code, Em, Font, I, Nobr, S, Small, Strike, Strong, Tt, U, Applet, Marquee, ObjectName}
    requires tag.name !in {Iframe, Noembed, Noframes, Script, Style, Textarea, Title, Xmp} && !(tag.name == Noscript && scripting)
    requires tag.name !in {Button, Dd, Dt, Form, H1, H2, H3, H4, H5, H6, Isindex, Li, Optgroup, OptionName, Rp, Rt, Table} && s.open != []
    ensures var r := Reconstructed(s); OpensOn(r, r.open, tag, StartStep(tag, s, quirks, scripting, form))
  {
    hide *;
    StartStepIs(tag, s, quirks, scripting, form);
    NoBlockKind(tag.name);
    OtherKind(tag.name, scripting);
    StillOpen(s);
    OpenedOn(Reconstructed(s), Reconstructed(s).open, tag);
  }

  lemma NoBlockKind(n: Name)
    requires n !in {Address, Article, Aside, Blockquote, Center, Details, Dialog, Dir, Div, Dl, Fieldset, Figcaption, Figure, Footer,
                    Header, Hgroup, Listing, MainName, Menu, Nav, Ol, P, Plaintext, Pre, Section, Summary, Ul}
    ensures !OpensAlone(n)
  {
  }

  lemma OtherKind(n: Name, scripting: bool)
    requires n !in {Area, Base, Basefont, Bgsound, Br, Embed, Hr, Image, Img, Input, Keygen, Link, Menuitem, Meta, Param, Source, Track, Wbr}
    requires n !in {Body, Caption, Col, Colgroup, Frame, Frameset, Head, Html, Tbody, Td, Tfoot, Th, Thead, Tr}
    requires n !in {A, B, Big, Code, Em, Font, I, Nobr, S, Small, Strike, Strong, Tt, U, Applet, Marquee, ObjectName}
    requires n !in {Iframe, Noembed, Noframes, Script, Style, Textarea, Title, Xmp} && !(n == Noscript && scripting)
    requires n !in {Button, Dd, Dt, Form, H1, H2, H3, H4, H5, H6, Isindex, Li, Optgroup, OptionName, Rp, Rt, Table}
    ensures !OpensNothing(n) && !IsHeadContent(n) && !IsQuietVoid(n) && !IsVoid(n) && !IsFormatting(n) && !IsEmbedded(n) && !IsHeading(n)
    ensures !OpensText(n, scripting)
  {
  }

  lemma StartOfXmp(tag: Tag, s: Snapshot, quirks: bool, scripting: bool, form: Option<FormElement>, base: Stack)
    requires tag.name == Xmp && LosesParagraph(s.open, base) && base != []
    ensures var r := Reconstructed(s.(open := base)); OpensOn(r, r.open, tag, StartStep(tag, s, quirks, scripting, form))
  {
    hide *;
    StartStepIs(tag, s, quirks, scripting, form);
    XmpKind();
    ParagraphStep(s, base);
    StillOpen(s.(open := base));
    OpenedOn(Reconstructed(s.(open := base)), Reconstructed(s.(open := base)).open, tag);
  }

  lemma XmpKind()
    ensures !OpensNothing(Xmp) && !IsHeadContent(Xmp) && !IsQuietVoid(Xmp) && !IsVoid(Xmp)
    ensures !IsFormatting(Xmp) && !IsEmbedded(Xmp) && !OpensAlone(Xmp) && !IsHeading(Xmp)
  {
  }

  /** An option or an option group closes an option that is the current node. */
  lemma StartOfOption(tag: Tag, s: Snapshot, quirks: bool, scripting: bool, form: Option<FormElement>)
    requires tag.name in {OptionName, Optgroup} && |s.open| > 1
    ensures var base := if s.open[|s.open| - 1].name == OptionName then s.open[..|s.open| - 1] else s.open;
            var r := Reconstructed(s.(open := base));
            OpensOn(r, r.open, tag, StartStep(tag, s, quirks, scripting, form))
  {
    hide *;
    StartStepIs(tag, s, quirks, scripting, form);
    OptionKind(tag.name);
    OptionLost(s);
    var base := if s.open[|s.open| - 1].name == OptionName then s.open[..|s.open| - 1] else s.open;
    StillOpen(s.(open := base));
    OpenedOn(Reconstructed(s.(open := base)), Reconstructed(s.(open := base)).open, tag);
  }

  lemma OptionLost(s: Snapshot)
    requires s.open != []
    ensures WithoutAnOption(s) == s.(open := if s.open[|s.open| - 1].name == OptionName then s.open[..|s.open| - 1] else s.open)
  {
  }

  lemma OptionKind(n: Name)
    requires n in {OptionName, Optgroup}
    ensures !OpensNothing(n) && !IsHeadContent(n) && !IsQuietVoid(n) && !IsVoid(n) && !n.Input? && !n.Image? && !n.Hr? && !n.A? && !n.Nobr?
    ensures !IsFormatting(n) && !IsEmbedded(n) && !OpensAlone(n) && !IsHeading(n)
  {
  }

  /** A part of a ruby closes what an end tag may imply on top, if a ruby is in scope. */
  lemma StartOfRuby(tag: Tag, s: Snapshot, quirks: bool, scripting: bool, form: Option<FormElement>, k: nat)
    requires tag.name in {Rp, Rt} && 0 < k <= |s.open|
    requires forall i :: k <= i < |s.open| ==> s.open[i].name in {Dd, Dt, Li, OptionName, Optgroup, P, Rp, Rt}
    requires s.open[k - 1].name !in {Dd, Dt, Li, OptionName, Optgroup, P, Rp, Rt}
    ensures (exists j :: InScopeAt(s.open, j, {Ruby}, Ordinary)) ==> OpensOn(s, s.open[..k], tag, StartStep(tag, s, quirks, scripting, form))
    ensures (forall j :: !InScopeAt(s.open, j, {Ruby}, Ordinary)) ==> OpensOn(s, s.open, tag, StartStep(tag, s, quirks, scripting, form))
  {
    hide *;
    StartStepIs(tag, s, quirks, scripting, form);
    RubyKind(tag.name);
    ScopeAt(s.open, {Ruby}, Ordinary);
    ImpliedAt(s.open, k);
    ImpliedLost(s);
    OpenedOn(s, s.open, tag);
    OpenedOn(s, s.open[..k], tag);
  }

  lemma ImpliedLost(s: Snapshot)
    ensures WithoutImplied(s) == s.(open := if InScope(s.open, {Ruby}, Ordinary) then s.open[..ImpliedCut(s.open, {})] else s.open)
  {
    hide InScope;
    hide ImpliedCut;
  }

  lemma RubyKind(n: Name)
    requires n in {Rp, Rt}
    ensures !OpensNothing(n) && !IsHeadContent(n) && !IsQuietVoid(n) && !IsVoid(n) && !n.Input? && !n.Image? && !n.Hr? && !n.A? && !n.Nobr?
    ensures !IsFormatting(n) && !IsEmbedded(n) && !OpensAlone(n) && !IsHeading(n)
  {
  }

  /** A button closes the buttons in scope, up to the outermost: none is left in scope where it goes. */
  lemma StartOfButton(tag: Tag, s: Snapshot, quirks: bool, scripting: bool, form: Option<FormElement>) returns (base: Stack)
    requires tag.name == Button && s.open != [] && s.open[0].name != Button
    ensures base != [] && base <= s.open && (base == s.open || s.open[|base|].name == Button)
    ensures (forall k :: !InScopeAt(s.open, k, {Button}, Ordinary)) ==> base == s.open
    ensures forall k :: !InScopeAt(base, k, {Button}, Ordinary)
    ensures var r := Reconstructed(s.(open := base)); OpensOn(r, r.open, tag, StartStep(tag, s, quirks, scripting, form))
  {
    hide *;
    StartStepIs(tag, s, quirks, scripting, form);
    ButtonKind();
    base := WithoutButtons(s.open);
    ButtonsLost(s.open);
    ButtonsStep(s);
    ScopeAt(base, {Button}, Ordinary);
    ScopeAt(s.open, {Button}, Ordinary);
    StillOpen(s.(open := base));
    OpenedOn(Reconstructed(s.(open := base)), Reconstructed(s.(open := base)).open, tag);
  }

  lemma ButtonsStep(s: Snapshot)
    ensures WithoutAllButtons(s) == s.(open := WithoutButtons(s.open))
  {
    hide WithoutButtons;
  }

  lemma {:induction false} ButtonsLost(open: Stack)
    ensures var base := WithoutButtons(open);
            && base <= open && (base == open || open[|base|].name == Button) && (!InScope(open, {Button}, Ordinary) ==> base == open)
    ensures open != [] && open[0].name != Button ==> WithoutButtons(open) != []
    decreases |open|
  {
    hide Topmost;
    hide EndsScope;
    if InScope(open, {Button}, Ordinary) {
      ButtonsLost(open[..Topmost(open, {Button})]);
    }
  }

  lemma ButtonKind()
    ensures !OpensNothing(Button) && !IsHeadContent(Button) && !IsQuietVoid(Button) && !IsVoid(Button)
    ensures !IsFormatting(Button) && !IsEmbedded(Button) && !OpensAlone(Button) && !IsHeading(Button)
  {
  }

  // ---------------------------------------------------------------------------------------------
  // An isindex

  // No p is in button scope, so none is closed.
  ghost predicate NoParagraphIn(open: Stack) {
    forall k :: !InScopeAt(open, k, {P}, ButtonScope)
  }

  lemma StillNoParagraph(base: Stack, more: Stack)
    requires NoParagraphIn(base) && forall e :: e in more ==> e.name != P
    ensures NoParagraphIn(base + more)
  {
    var open := base + more;
    forall i | |base| <= i < |open|
      ensures open[i].name != P
    {
      assert open[i] in more;
    }
    forall k
      ensures InScopeAt(open, k, {P}, ButtonScope) ==> InScopeAt(base, k, {P}, ButtonScope)
    {
      assert forall j :: 0 <= j < |base| ==> open[j] == base[j];
    }
  }

  lemma NoneLost(s: Snapshot)
    requires NoParagraphIn(s.open)
    ensures WithoutParagraph(s) == s
  {
    hide InScopeAt;
    hide WithoutP;
    assert LosesParagraph(s.open, s.open);
    ParagraphStep(s, s.open);
  }

  lemma ReconstructedNames(s: Snapshot)
    requires forall entry :: entry in s.active && entry.Formatting? ==> IsFormatting(entry.tag.name)
    ensures s.open <= Reconstructed(s).open && s.next <= Reconstructed(s).next == s.next + |Reconstructed(s).open| - |s.open|
    ensures forall e :: e in Reconstructed(s).open[|s.open|..] ==> IsFormatting(e.name)
  {
    hide Chained;
    hide ReopenFrom;
    hide IsFormatting;
    var first := ReopenFrom(s.active, s.open);
    assert forall i :: first <= i < |s.active| ==> s.active[i] in s.active;
  }

  lemma FormattingIsNoneOf(n: Name)
    requires IsFormatting(n)
    ensures n != P && n != Form && n != LabelName && !EndsScope(Ordinary, n) && !HasImpliedEnd(n)
  {
  }

  /**
   An isindex is a form with a label between two rules: after it only what was reconstructed for the label stays
   open, and besides that four nodes are made.
   */
  lemma StartOfIsindex(tag: Tag, s: Snapshot, quirks: bool, scripting: bool, base: Stack)
    requires tag.name == Isindex && LosesParagraph(s.open, base) && base != [] && NoParagraphIn(base)
    requires (forall e :: e in base ==> e.id < s.next) && forall entry :: entry in s.active && entry.Formatting? ==> IsFormatting(entry.tag.name)
    ensures var form := Element(s.next, Form, map[]);
            var ruled := Voided(Opened(s.(open := base), Tag(Form, map[])), Tag(Hr, map[]));
            var r, t := Reconstructed(ruled), StartStep(tag, s, quirks, scripting, None);
            && OpensOn(s, base, Tag(Form, map[]), Opened(s.(open := base), Tag(Form, map[]))) && ruled.open == base + [form]
            && ruled.open <= r.open && t.open == base + r.open[|base| + 1..] && t.active == r.active && t.next == r.next + 2
  {
    hide *;
    StartStepIs(tag, s, quirks, scripting, None);
    IsindexKind();
    ParagraphStep(s, base);
    IsindexParts(s);
    var tagged := Tag(Form, map[]);
    var form := Element(s.next, Form, map[]);
    var inForm := Opened(s.(open := base), tagged);
    OpenedOn(s, base, tagged);
    OpenedIs(s.(open := base), tagged);
    StillNoParagraph(base, [form]);
    NoneLost(inForm);
    var ruled := Voided(inForm, Tag(Hr, map[]));
    VoidedIs(inForm, Tag(Hr, map[]));
    var r := Reconstructed(ruled);
    ReconstructedNames(ruled);
    var more := r.open[|base| + 1..];
    assert r.open == base + [form] + more;
    forall e | e in more
      ensures e.name != P && !EndsScope(Ordinary, e.name) && !HasImpliedEnd(e.name) && e.name != Form
    {
      FormattingIsNoneOf(e.name);
    }
    LabelComesAndGoes(r);
    StillNoParagraph(base + [form], more);
    var labelled := EndStep(Tag(LabelName, map[]), Opened(r, Tag(LabelName, map[])), None);
    NoneLost(labelled);
    VoidedIs(labelled, Tag(Hr, map[]));
    FormTakenOut(base, form, more);
    FormEnds(tagged, Voided(labelled, Tag(Hr, map[])), Some(form));
  }

  lemma IsindexKind()
    ensures !OpensNothing(Isindex) && !IsHeadContent(Isindex) && !IsQuietVoid(Isindex) && !IsVoid(Isindex)
    ensures !IsFormatting(Isindex) && !IsEmbedded(Isindex) && !OpensAlone(Isindex) && !IsHeading(Isindex)
  {
  }

  lemma IsindexParts(s: Snapshot)
    ensures var ruled := Voided(WithoutParagraph(Opened(WithoutParagraph(s), Tag(Form, map[]))), Tag(Hr, map[]));
            var labelled := EndStep(Tag(LabelName, map[]), Opened(Reconstructed(ruled), Tag(LabelName, map[])), None);
            && Element(s.next, Form, map[]).name.Form?
            && IsindexStep(s) == EndStep(Tag(Form, map[]), Voided(WithoutParagraph(labelled), Tag(Hr, map[])), Some(Element(s.next, Form, map[])))
  {
    hide Voided;
    hide Opened;
    hide Reconstructed;
    hide WithoutParagraph;
    hide EndStep;
  }

  lemma OpenedIs(s: Snapshot, tag: Tag)
    ensures Opened(s, tag).open == s.open + [Element(s.next, tag.name, tag.attributes)] && Opened(s, tag).active == s.active
    ensures Opened(s, tag).next == s.next + 1
  {
    hide Grown;
  }

  lemma VoidedIs(s: Snapshot, tag: Tag)
    ensures Voided(s, tag).open == s.open && Voided(s, tag).active == s.active && Voided(s, tag).next == s.next + 1
  {
    hide Grown;
  }

  lemma LabelComesAndGoes(r: Snapshot)
    ensures var t := EndStep(Tag(LabelName, map[]), Opened(r, Tag(LabelName, map[])), None);
            t.open == r.open && t.active == r.active && t.next == r.next + 1
  {
    hide *;
    var tag := Tag(LabelName, map[]);
    OpenedIs(r, tag);
    var s := Opened(r, tag);
    LabelEnds(s, |r.open|);
    assert s.open[..|r.open|] == r.open;
  }

  lemma LabelEnds(s: Snapshot, k: nat)
    requires |s.open| == k + 1 && s.open[k].name == LabelName
    ensures EndStep(Tag(LabelName, map[]), s, None) == s.(open := s.open[..k])
  {
    hide EndStep;
    EndOfOther(Tag(LabelName, map[]), s, None);
    assert ClosesUnspecial(s.open, k, LabelName);
  }

  lemma FormTakenOut(base: Stack, form: Element, more: Stack)
    requires form.name == Form && form !in base
    requires forall e :: e in more ==> !EndsScope(Ordinary, e.name) && !HasImpliedEnd(e.name) && e.name != Form
    ensures var open := base + [form] + more;
            && InScope(open, {Form}, Ordinary) && ImpliedCut(open, {}) == |open|
            && IndexOf(open[..|open|], form) == |base| && Removed(open[..|open|], |base|) == base + more
  {
    hide EndsScope;
    hide IndexOf;
    hide Topmost;
    hide ImpliedCut;
    var open := base + [form] + more;
    assert open[..|open|] == open && open[..|base|] == base;
    forall i | |base| < i < |open|
      ensures open[i] in more
    {
      assert open[i] == more[i - |base| - 1];
    }
    assert InScopeAt(open, |base|, {Form}, Ordinary);
    ScopeAt(open, {Form}, Ordinary);
    FirstPlace(open, form, |base|);
    assert !HasImpliedEnd(open[|open| - 1].name);
  }

  /** The form that is remembered: the first one, until an end tag of a form. */
  lemma FormRemembered(tag: Tag, s: Snapshot, form: Option<FormElement>)
    ensures FormAfter(StartTag(tag), s, form) ==
            if form == None && tag.name == Form then Some(Element(s.next, Form, tag.attributes)) else form
    ensures FormAfter(EndTag(tag), s, form) == if tag.name == Form then None else form
  {
  }

  // ---------------------------------------------------------------------------------------------
  // Other tokens

  /** A character other than null ends the text of the current node, after reconstruction; null changes nothing. */
  lemma CharacterInBody(data: char, s: Snapshot, quirks: bool, scripting: bool, form: Option<FormElement>)
    ensures data == 0 as char ==> BodyStep(Character(data), s, quirks, scripting, form) == s
    ensures var r, t := Reconstructed(s), BodyStep(Character(data), s, quirks, scripting, form);
            data != 0 as char && r.open != [] && Top(r.open).id in r.tree && r.next !in r.tree ==>
              && t.open == r.open && t.active == r.active && Top(r.open).id in t.tree
              && TextAt(t.tree, Top(r.open).id) == TextAt(r.tree, Top(r.open).id) + [data]
  {
    var r := Reconstructed(s);
    hide Reconstructed;
    hide WithText;
    hide TextAt;
    if r.open != [] && Top(r.open).id in r.tree && r.next !in r.tree {
      TextGrows(r.tree, Top(r.open).id, r.next, data);
    }
  }
}
