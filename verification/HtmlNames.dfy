/** Names, tokens and insertion modes of tree construction, and the fixed lists of names its rules test. */
module HtmlNames {
  // Every name the rules mention; all other names are alike to them.
  datatype Name =
    | A | Address | Applet | Area | Article | Aside | B | Base | Basefont | Bgsound | Big | Blockquote | Body | Br
    | Button | Caption | Center | Code | Col | Colgroup | Dd | Details | Dialog | Dir | Div | Dl | Dt | Em | Embed
    | Fieldset | Figcaption | Figure | Font | Footer | Form | Frame | Frameset | H1 | H2 | H3 | H4 | H5 | H6 | Head
    | Header | Hgroup | Hr | Html | I | Iframe | Image | Img | Input | Isindex | Keygen | LabelName | Li | Link | Listing
    | MainName | Marquee | Math | Menu | Menuitem | Meta | Nav | Nobr | Noembed | Noframes | Noscript | ObjectName | Ol
    | Optgroup | OptionName | P | Param | Plaintext | Pre | Rp | Rt | Ruby | S | Script | Section | Select | Small
    | Source | Strike | Strong | Style | Summary | Svg | Table | Tbody | Td | Textarea | Tfoot | Th | Thead | Title
    | Tr | Track | Tt | U | Ul | Wbr | Xmp | Other(text: string)

  datatype Tag = Tag(name: Name, attributes: map<string, string>)

  datatype Token =
    | StartTag(tag: Tag)
    | EndTag(tag: Tag)
    | Character(data: char)
    | Comment(text: string)
    | Doctype(quirks: bool)
    | EndOfFile

  datatype Mode =
    | Initial | BeforeHtml | BeforeHead | InHead | InHeadNoscript | AfterHead | InBody | Text | InTable | InTableText
    | InCaption | InColumnGroup | InTableBody | InRow | InCell | InSelect | InSelectInTable | AfterBody | InFrameset
    | AfterFrameset | AfterAfterBody | AfterAfterFrameset

  predicate IsWhitespace(c: char) {
    c == '\t' || c == '\n' || c == 0x0C as char || c == '\r' || c == ' '
  }

  predicate IsSpecial(n: Name) {
    || n.Address? || n.Applet? || n.Area? || n.Article? || n.Aside? || n.Base? || n.Basefont? || n.Bgsound?
    || n.Blockquote? || n.Body? || n.Br? || n.Button? || n.Caption? || n.Center? || n.Col? || n.Colgroup? || n.Dd?
    || n.Details? || n.Dir? || n.Div? || n.Dl? || n.Dt? || n.Embed? || n.Fieldset? || n.Figcaption? || n.Figure?
    || n.Footer? || n.Form? || n.Frame? || n.Frameset? || n.Head? || n.Header? || n.Hgroup? || n.Hr? || n.Html?
    || n.Iframe? || n.Img? || n.Input? || n.Isindex? || n.Li? || n.Link? || n.Listing? || n.MainName? || n.Marquee?
    || n.Menu? || n.Menuitem? || n.Meta? || n.Nav? || n.Noembed? || n.Noframes? || n.Noscript? || n.ObjectName?
    || n.Ol? || n.P? || n.Param? || n.Plaintext? || n.Pre? || n.Script? || n.Section? || n.Select? || n.Source?
    || n.Style? || n.Summary? || n.Table? || n.Tbody? || n.Td? || n.Textarea? || n.Tfoot? || n.Th? || n.Thead?
    || n.Title? || n.Tr? || n.Track? || n.Ul? || n.Wbr? || n.Xmp? || IsHeading(n)
  }

  predicate IsHeading(n: Name) {
    n.H1? || n.H2? || n.H3? || n.H4? || n.H5? || n.H6?
  }

  // The elements an implied end tag closes.
  predicate HasImpliedEnd(n: Name) {
    n.Dd? || n.Dt? || n.Li? || n.OptionName? || n.Optgroup? || n.P? || n.Rp? || n.Rt?
  }

  predicate IsFormatting(n: Name) {
    || n.A? || n.B? || n.Big? || n.Code? || n.Em? || n.Font? || n.I? || n.Nobr? || n.S? || n.Small? || n.Strike?
    || n.Strong? || n.Tt? || n.U?
  }

  predicate IsTableBody(n: Name) {
    n.Tbody? || n.Tfoot? || n.Thead?
  }

  predicate IsCell(n: Name) {
    n.Td? || n.Th?
  }

  // Elements that are opened together with a marker in the list of active formatting elements.
  predicate IsEmbedded(n: Name) {
    n.Applet? || n.Marquee? || n.ObjectName?
  }

  predicate TakesMarker(n: Name) {
    IsEmbedded(n) || n.Caption? || IsCell(n)
  }

  // Elements that are never left open.
  predicate HoldsNothing(n: Name) {
    || n.Area? || n.Base? || n.Basefont? || n.Bgsound? || n.Br? || n.Col? || n.Embed? || n.Frame? || n.Hr? || n.Image?
    || n.Img? || n.Input? || n.Keygen? || n.Link? || n.Menuitem? || n.Meta? || n.Param? || n.Source? || n.Track? || n.Wbr?
  }

  // All elements are plain but those whose place on the stack the insertion mode depends on and those that
  // hold nothing.
  predicate IsPlain(n: Name) {
    && !HoldsNothing(n)
    && !(n.Html? || n.Head? || n.Body? || n.Frameset? || n.Table? || n.Caption? || n.Colgroup? || IsTableBody(n) || n.Tr?
         || IsCell(n) || n.Select?)
  }

  datatype Scope = Ordinary | ListItem | ButtonScope | TableScope

  predicate EndsScope(scope: Scope, n: Name) {
    if scope.TableScope? then n.Html? || n.Table?
    else
      || n.Applet? || n.Caption? || n.Html? || n.Table? || IsCell(n) || n.Marquee? || n.ObjectName?
      || (scope.ListItem? && (n.Ol? || n.Ul?))
      || (scope.ButtonScope? && n.Button?)
  }

  // The start tags that "in body" hands to "in head".
  predicate IsHeadContent(n: Name) {
    n.Base? || n.Basefont? || n.Bgsound? || n.Link? || n.Meta? || n.Noframes? || n.Script? || n.Style? || n.Title?
  }

  // Elements whose start tag in a body first closes an open p.
  predicate IsBlock(n: Name) {
    || n.Address? || n.Article? || n.Aside? || n.Blockquote? || n.Center? || n.Details? || n.Dialog? || n.Dir?
    || n.Div? || n.Dl? || n.Fieldset? || n.Figcaption? || n.Figure? || n.Footer? || n.Header? || n.Hgroup?
    || n.MainName? || n.Menu? || n.Nav? || n.Ol? || n.Section? || n.Summary? || n.Ul?
  }

  // Start tags that only make sense inside a table.
  predicate IsTablePart(n: Name) {
    n.Caption? || n.Col? || n.Colgroup? || IsTableBody(n) || n.Tr? || IsCell(n)
  }

  predicate IsBodyMode(m: Mode) {
    m.InBody? || m.InCell? || m.InCaption?
  }

  predicate IsRowMode(m: Mode) {
    m.InTable? || m.InTableBody? || m.InRow?
  }

  // Inside a table.
  predicate IsTableMode(m: Mode) {
    IsRowMode(m) || m.InCell? || m.InCaption? || m.InColumnGroup?
  }

  // Where the end tag of the table is obeyed; in a column group it is not.
  predicate ObeysTableEnd(m: Mode) {
    IsRowMode(m) || m.InCell? || m.InCaption?
  }

  // The mode for what a part of a table holds.
  function OpenedBy(n: Name): Mode
    requires IsTablePart(n)
  {
    if n.Caption? then InCaption
    else if n.Col? || n.Colgroup? then InColumnGroup
    else if IsTableBody(n) then InTableBody
    else if n.Tr? then InRow
    else InCell
  }

  predicate IsSelectMode(m: Mode) {
    m.InSelect? || m.InSelectInTable?
  }

  // Elements that hold nothing: after reconstructing, and without.
  predicate IsVoid(n: Name) {
    n.Area? || n.Br? || n.Embed? || n.Img? || n.Keygen? || n.Wbr?
  }

  predicate IsQuietVoid(n: Name) {
    n.Menuitem? || n.Param? || n.Source? || n.Track?
  }

  // Start tags in a body whose rules may simulate another token.
  predicate Simulates(n: Name) {
    || IsBlock(n) || n.P? || IsHeading(n) || n.Pre? || n.Listing? || n.Form? || n.Li? || n.Plaintext? || n.Button? || n.A?
    || n.Nobr? || n.Table? || n.Hr? || n.Isindex? || n.Xmp? || n.OptionName? || n.Optgroup?
  }

  function Lower(c: char): char {
    if 'A' <= c <= 'Z' then c + 32 as char else c
  }

  predicate IsHiddenType(attributes: map<string, string>) {
    var hidden := "hidden";
    && "type" in attributes && |attributes["type"]| == |hidden|
    && forall i :: 0 <= i < |hidden| ==> Lower(attributes["type"][i]) == hidden[i]
  }

  // ---------------------------------------------------------------------------------------------
  // The lists of names by themselves

  lemma SpecialNames(n: Name)
    ensures IsSpecial(n) <==>
            n in {Address, Applet, Area, Article, Aside, Base, Basefont, Bgsound, Blockquote, Body, Br, Button, Caption, Center, Col, Colgroup,
                  Dd, Details, Dir, Div, Dl, Dt, Embed, Fieldset, Figcaption, Figure, Footer, Form, Frame, Frameset, H1, H2, H3, H4, H5, H6,
                  Head, Header, Hgroup, Hr, Html, Iframe, Img, Input, Isindex, Li, Link, Listing, MainName, Marquee, Menu, Menuitem, Meta, Nav,
                  Noembed, Noframes, Noscript, ObjectName, Ol, P, Param, Plaintext, Pre, Script, Section, Select, Source, Style, Summary,
                  Table, Tbody, Td, Textarea, Tfoot, Th, Thead, Title, Tr, Track, Ul, Wbr, Xmp}
  {
  }

  lemma ScopeNames(n: Name)
    ensures EndsScope(Ordinary, n) <==> n in {Applet, Caption, Html, Marquee, ObjectName, Table, Td, Th}
    ensures EndsScope(ListItem, n) <==> n in {Applet, Caption, Html, Marquee, ObjectName, Table, Td, Th, Ol, Ul}
    ensures EndsScope(ButtonScope, n) <==> n in {Applet, Caption, Html, Marquee, ObjectName, Table, Td, Th, Button}
    ensures EndsScope(TableScope, n) <==> n in {Html, Table}
  {
  }

  lemma ImpliedNames(n: Name)
    ensures HasImpliedEnd(n) <==> n in {Dd, Dt, Li, OptionName, Optgroup, P, Rp, Rt}
  {
  }

  lemma WhitespaceCharacters(c: char)
    ensures IsWhitespace(c) <==> c as int in {0x09, 0x0A, 0x0C, 0x0D, 0x20}
  {
  }

  /** The type of an input is compared without regard to case. */
  lemma HiddenTypes(attributes: map<string, string>)
    ensures "type" in attributes && attributes["type"] in {"hidden", "Hidden", "HIDDEN"} ==> IsHiddenType(attributes)
    ensures "type" !in attributes || attributes["type"] in {"", "text", "hiddenn"} ==> !IsHiddenType(attributes)
  {
  }
}
