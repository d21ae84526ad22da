# Verified models of three components

Three components of the repository, modelled in Dafny and proved against specifications of what they
are for.

- **HTML tree construction** (`HtmlNames`, `HtmlStack`, `HtmlFormatting`, `HtmlTree`, `HtmlState`,
  `HtmlAdoption`, `HtmlBody`, `HtmlRegions`, `HtmlTreeConstruction`, `HtmlEndTags`, `HtmlStartTags`,
  `HtmlRegionTags`, `HtmlRuns`). The class
  `TreeConstruction` has the fields of the original: the stack of open elements, the list of active
  formatting elements, the insertion mode and the mode to return to, the head and form elements, the
  flags and the pending table characters. Its methods are the rules of all insertion modes, with their
  simulated tokens and reprocessing, and the algorithms those rules share. The node tree is a map from
  identities to nodes that the methods reassign. Three things are proved for every token from every
  state between tokens, together with termination: the invariant `HtmlState.Running` (the tree has no
  cycles and the stack goes down it, markers balance the elements that were opened with one, no four of
  a family stand between two markers, and the insertion mode fixes the shape of the stack); what the
  token does, as the functions `BodyStep` of `HtmlBody` and `RegionStep` of `HtmlRegions`, in which
  nothing is simulated or processed again; and when it fails, as `HtmlBody.FaultOf`. `HtmlEndTags`,
  `HtmlStartTags` and `HtmlRegionTags` say what those functions come to with names written out and places
  quantified, so that a reader need not follow them. `HtmlRuns` has two concrete documents.
- **The streaming JSON template machine** (`JsonTemplate`, `JsonEval`, `JsonGrammar`, `JsonFrames`,
  `JsonValues`, `JsonMeaning`, `JsonNotation`). `JsonFrames` has one class per frame of the original, written one token at a time. They
  are proved to refine two references that know nothing of frames: a grammar, as partial parses with
  one step per token, and a recursive evaluator of templates over a domain. `JsonMeaning` reads the
  evaluator name by name and match by match, and `JsonNotation` holds the grammar against RFC 4627.
- **URL-encoded form data** (`WebForm`, `FormSpelling`). The encoder's in-place loop, the decoder, the
  splitter, the two directions together, exactly when each direction fails, and what every spelling of a
  byte is read as.

Where the code departs from the documents it follows, the model follows the code. The cases are:

- Noah's Ark compares names and numbers of attributes, not the attributes (Html.FormattingElement.cpp:16-30).
- The inner loop of the adoption agency uses the same element in each of its turns
  (Html.TreeConstruction.cpp:1035), and its bookmark reads the entry before the formatting element,
  which must exist (Html.TreeConstruction.cpp:1012); without one the run stops with `BeforeFirstEntry`.
  `HtmlAdoption.AgencyFailsIff` says exactly when, and `<b><p></b>` is the shortest such document.
- Taking over child nodes leaves them on the old parent's list (Html.Node.cpp:89-96), so the text of
  `<i><b><p>x</b>` is listed twice; `HtmlAdoption.RoundConsistentIff` says exactly when.
- An implied root element is not attached to the document (Html.TreeConstruction.cpp:1739-1753), so
  statements about the tree speak of what is below the root of the stack.
- Select scope answers true at the first element that is not an option (Html.TreeConstruction.cpp:690-740).
- An input without a type clears the frameset flag (Html.TreeConstruction.cpp:2757-2763).
- A `_charset_` field selects a decoder from itself onwards, not for the whole payload, and its label is
  the same string as its value, which decoding overwrites: the fields after it use the decoded value as
  the label (Web.Form.cpp:354-384).

The nodes and the entries of the formatting list follow Html.Node.cpp and Html.FormattingElement.cpp, and
`ScriptFrame` follows Json.ScriptFrame.cpp; the table below cites the places that use them.

The contracts of the mode rules have four parts. `Handled` is the invariant and the measure;
`BodyEffect` and `RegionEffect` say that the token has done what its step function says or, processed
again, is still to do just that; `FaultIs` says the same of its fault. A `Snapshot` holds the stack, the
list, the tree and the next identity. `MayFail` names the tokens that have a fault in some state. `rank`
is a ghost field, the witness that the tree has no cycle.

## Model

| member | source | states |
|---|---|---|
| HtmlTreeConstruction.WriteElements | Html.TreeConstruction.cpp:1506-1522 | Every run: whatever tokens are written, every state between two of them satisfies the invariant `Running`; the end of the file closes every element; only the tokens of `MayFail` can stop a run. |
| HtmlTreeConstruction.TreeConstruction.WriteElement | Html.TreeConstruction.cpp:1506-1522 | A token is processed to its end (the reprocessing and simulating recursion terminates), from every state between tokens to such a state. It fails if and only if `FaultOf` gives a fault for the state it starts from, and then with that one. In a body, cell or caption, stack, list, tree, identities, form element and mode become exactly those of `BodyStep`; the tokens of a head, table, select or frameset that `HasRegionStep` lists do exactly what `RegionStep` says; a comment becomes the last child of the document or the current node; end-of-file always succeeds and leaves no open element. |
| HtmlTreeConstruction.TreeConstruction.Dispatch | Html.TreeConstruction.cpp:1511-1522 | Reprocessing terminates: the measure of nested simulation, mode steps and stack height falls with every round; effect, region and fault of the last round are what the token was to do in the state it came in. |
| HtmlTreeConstruction.TreeConstruction.ApplyTheRules | Html.TreeConstruction.cpp:1524-1556 | The rules of every mode keep the invariant, have the effect and the faults of their specification, and ask for reprocessing only with a smaller measure, where it comes to the same. |
| HtmlState.TreeBetweenTokens | Html.TreeConstruction.cpp:174-201 | In every state between tokens the node tree has no cycle, parents and lists agree on edges, every open element is in the tree below the stack's root, and no later stack entry is an ancestor of an earlier one. |
| HtmlState.ListBetweenTokens | Html.TreeConstruction.cpp:442-501 | In every state between tokens, adoption included: no four entries of a family stand between two markers; there is an order-preserving injection from open applet, marquee, object, caption, td and th elements to markers; and what is open of the entries after a marker lies above the element that owns it and above what is open of the entries before it. |
| HtmlState.ShapeBetweenTokens | Html.TreeConstruction.cpp:370-418 | In every state between tokens the mode fixes the stack: table on top; colgroup over table; table body over table; row over both; an open cell or caption over that chain with nothing of a table above it; html and body at the bottom otherwise. |
| HtmlState.NothingEmptyIsOpen | Html.TreeConstruction.cpp:2722-2797 | In every state between tokens no open element is named area, base, basefont, bgsound, br, col, embed, frame, hr, image, img, input, keygen, link, menuitem, meta, param, source, track or wbr. |
| HtmlState.HandledAgain | Html.TreeConstruction.cpp:1511-1522 | The invariant, the measure and whether a token may fail: what is claimed of a token follows from what is claimed of its reprocessing in the next mode. |
| HtmlBody.EffectLater | Html.TreeConstruction.cpp:1511-1522 | If a rule of a body hands a token on, with the state changed and perhaps as another token, and that has the effect of its specification, the first token has had its own: with and without quirks, for stack, list, tree, identities, form element, mode and whether it counts as ignored. |
| HtmlRegions.RegionLater | Html.TreeConstruction.cpp:1511-1522 | The same for head, table, select and frameset. |
| HtmlBody.FaultsAreFew | Html.TreeConstruction.cpp:1511-1522 | Only end tags of formatting elements and the start tags a, nobr, dd, dt, math and svg have a fault, and only in and around a body. |
| HtmlBody.FaultInNewBody | Html.TreeConstruction.cpp:2135-2264 | A token that starts the body fails there exactly if it does in the mode before: with an empty list the agency cannot fail. |
| HtmlRuns.MisnestedParagraph | Html.TreeConstruction.cpp:1002-1016 | The fault is met: in an empty body, `<b><p></b>` stops with `BeforeFirstEntry`. The state is built by the steps of the specification and satisfies the invariant. |
| HtmlState.NextMode | Html.TreeConstruction.cpp:1511-1522 | Reprocessing in a mode of fewer steps meets the rules' contract, for every pair of modes the rules switch between. |
| HtmlTreeConstruction.TreeConstruction.Simulate | Html.TreeConstruction.cpp:1473-1487 | Simulated start and end tags run through the whole dispatcher, terminate, keep the mode, do exactly what `BodyStep` says, and fail exactly if the tag would have failed by itself; then nothing has changed. |
| HtmlTreeConstruction.TreeConstruction.constructor | Html.TreeConstruction.cpp:25-36 | The first state satisfies the invariant: an empty stack, an empty list, the document alone in the tree without children, neither head nor form. |
| HtmlAdoption.RoundsKeep | Html.TreeConstruction.cpp:892-1145 | Any number of rounds of the adoption agency: the tree stays acyclic and linked, everything below the stack's root stays below it, only nodes made on the way are added, the root stays, and the list loses at most one entry and otherwise keeps its tokens as a multiset. |
| HtmlAdoption.AgencyFailsIff | Html.TreeConstruction.cpp:892-1145 | The agency, with any number of rounds, fails if and only if the formatting element it selects first has the first entry of the list and a special element above it (`LooksBefore`, decided before the first round); no later round can fail, and a failure has changed nothing. |
| HtmlAdoption.BookmarkPlace | Html.TreeConstruction.cpp:1012-1078 | The bookmark stays after the last marker: what lies above the formatting element and has an entry has it there. |
| HtmlAdoption.RoundOrder | Html.TreeConstruction.cpp:1120-1141 | The new element goes above everything whose entry is before the last marker, and its entry after that marker, so the order of stack and list is kept. |
| HtmlEndTags.AgencyCloses | Html.TreeConstruction.cpp:983-1000 | If the element of the last entry of the name is open with nothing special above it, the stack is cut below it, exactly its entry goes, and the tag is not ignored. |
| HtmlEndTags.AgencyForgets | Html.TreeConstruction.cpp:936-941 | If it is not open, exactly its entry goes. |
| HtmlEndTags.AgencyIgnores | Html.TreeConstruction.cpp:943-950 | If it is open and something that ends the scope is above all open elements of the name, nothing changes and the tag is ignored. |
| HtmlEndTags.AgencyWithoutEntry | Html.TreeConstruction.cpp:923-928 | Without an entry, the topmost element of the name is closed if nothing special is above it, and the tag ignored if there is no such element. |
| HtmlEndTags.AgencyRehangs | Html.TreeConstruction.cpp:966-1016 | If it is in scope with something special above it, the agency fails for the first entry of the list and otherwise goes on from what a round leaves. |
| HtmlEndTags.RoundWithoutClone | Html.TreeConstruction.cpp:1017-1141 | A round, place by place: the formatting element leaves the stack, with the element right below the block if that has no entry; a new element for the entry's token stands right above the block; its entry stands where the old one stood. |
| HtmlEndTags.RoundWithClone | Html.TreeConstruction.cpp:1049-1141 | The same if the element right below the block has an entry: a clone of it takes its place on the stack and in its entry, and the new entry comes right after that. |
| HtmlEndTags.BlockChangesHands | Html.TreeConstruction.cpp:1080-1118 | And in the tree: the block comes last below what was below the formatting element, inside the clone if there is one; the new element takes over the block's children in their order, becomes their parent, and is the block's last child. |
| HtmlEndTags.OpenEntryIsInScope | Html.TreeConstruction.cpp:943-950 | In a body, a cell or a caption the element of an entry after the last marker is in scope wherever it is open, so there the tag is never ignored for being out of scope. |
| HtmlEndTags.AgencyEnds | Html.TreeConstruction.cpp:892-1145 | So from every such state, however many rounds it takes, the formatting element is neither open nor in the list afterwards; the one exception is the failure, with nothing changed. |
| HtmlAdoption.RoundKeeps | Html.TreeConstruction.cpp:1002-1141 | One furthest-block round keeps soundness, the body, cell or caption, distinctness, the list's length and multiset of tokens, acyclicity and everything below the root; the stack changes by 0 or -1. |
| HtmlTree.AdoptionKeepsTree | Html.TreeConstruction.cpp:1049-1118 | Moving the block, the clone and the children keeps the tree acyclic, keeps every node below the root below it, and puts nothing there but the clone and the new element. |
| HtmlTree.ConsistentIffChildless | Html.TreeConstruction.cpp:1114-1118 | The links are consistent after the rehanging (each node listed once, by its own parent only) if and only if the furthest block had no children, because handing children over does not take them off the old list. |
| HtmlAdoption.RoundConsistentIff | Html.TreeConstruction.cpp:1002-1141 | So for every round the rules can reach, from a tree with consistent links: they are consistent afterwards if and only if the furthest block has no children. |
| HtmlRuns.TextListedTwice | Html.TreeConstruction.cpp:1114-1118 | And a state where they are not: after `<i><b><p>x` in an empty body, which satisfies the invariant and has consistent links, the round for `</b>` leaves the text listed twice. |
| HtmlAdoption.ListKeepsTags | Html.TreeConstruction.cpp:1120-1131 | A round leaves the list with the same number of entries and the same tokens. |
| HtmlAdoption.StackKeepsLength | Html.TreeConstruction.cpp:1037-1141 | The stack keeps its length, or loses the element above the block when that has no entry. |
| HtmlAdoption.PlanStaysInside | Html.TreeConstruction.cpp:905-964 | The selected formatting element always lies inside the current body, cell, caption or object. |
| HtmlAdoption.PlanOf | Html.TreeConstruction.cpp:902-1000 | There is no entry to use exactly if none after the last marker has the name; otherwise the formatting element is the last of the name after that marker, open and in scope where the plan closes or rehangs; the furthest block is the lowest special element above it. `HtmlEndTags` says when each plan is chosen, by what it comes to. |
| HtmlAdoption.FurthestBlock | Html.TreeConstruction.cpp:966-981 | The furthest block is special and no element between it and the formatting element is. |
| HtmlAdoption.RoundSound | Html.TreeConstruction.cpp:1002-1141 | A round takes a sound state to a sound one: lineage, list identities, three of a family at most between markers, marker balance and order together. |
| HtmlTreeConstruction.TreeConstruction.AdoptionAgency | Html.TreeConstruction.cpp:892-1145 | The loop of at most eight rounds computes the function `Rounds` on stack, list, tree and identities; it fails if and only if `LooksBefore` holds of the stack and the list it starts from, with nothing changed. |
| HtmlTreeConstruction.TreeConstruction.AdoptionRound | Html.TreeConstruction.cpp:902-1144 | One round does exactly what the plan for the stack and the list says (`HtmlEndTags` has the plans by their effect), fails exactly when the entry is first in the list, and is the last exactly when nothing is rehung. |
| HtmlTreeConstruction.TreeConstruction.Rehang | Html.TreeConstruction.cpp:1002-1141 | The imperative inner loop, the rehanging, the new element and both insertions at bookmark and block give the stack, list and tree of the specification. |
| HtmlTreeConstruction.TreeConstruction.RehangInside | Html.TreeConstruction.cpp:1017-1088 | Up to three turns of the inner loop leave the element above the block alone, drop it, or clone it once, and move the bookmark accordingly. |
| HtmlTreeConstruction.TreeConstruction.CloneAbove | Html.TreeConstruction.cpp:1049-1082 | The clone takes its original's place in list, stack and above the moved block; the bookmark moves only for the first. |
| HtmlTreeConstruction.TreeConstruction.HandOver | Html.TreeConstruction.cpp:1090-1118 | The last node goes below the common ancestor, a new element takes the block's children and becomes its last child. |
| HtmlTreeConstruction.TreeConstruction.ReplaceEntry | Html.TreeConstruction.cpp:1120-1131 | The new entry stands right after the bookmark in the list without the old entry. |
| HtmlTreeConstruction.TreeConstruction.ReplaceElement | Html.TreeConstruction.cpp:1133-1141 | The new element stands right above the furthest block in the stack without the formatting element. |
| HtmlTreeConstruction.TreeConstruction.CloseFormatting | Html.TreeConstruction.cpp:983-1000 | Without a furthest block the stack is cut below the formatting element and its entry removed. |
| HtmlTreeConstruction.TreeConstruction.FindFurthestBlock | Html.TreeConstruction.cpp:966-981 | The backward scan finds the furthest block of the specification. |
| HtmlTreeConstruction.TreeConstruction.FindActive | Html.TreeConstruction.cpp:905-921 | The backward scan finds the last entry of the name after the last marker. |
| HtmlTreeConstruction.TreeConstruction.TakeAllChildNodesOf | Html.TreeConstruction.cpp:1114-1115 | Appends the children in order; the old parent goes on listing them. |
| HtmlTreeConstruction.TreeConstruction.BodyEndsFormatting | Html.TreeConstruction.cpp:3280-3296 | The end tag of a formatting element is the adoption agency, with its whole effect and its exact fault. |
| HtmlTreeConstruction.TreeConstruction.ReconstructActive | Html.TreeConstruction.cpp:278-368 | Entries up to the rightmost marker or open entry are untouched, each later one gets one new element of its own token, and exactly those are pushed in list order, each a child of the previous top. |
| HtmlTreeConstruction.TreeConstruction.ReopenEntries | Html.TreeConstruction.cpp:311-361 | The reopening loop, as a function of list, stack and tree. |
| HtmlFormatting.ReopenOnce | Html.TreeConstruction.cpp:278-368 | Reconstructing twice is reconstructing once: after it nothing is left to reopen. |
| HtmlFormatting.ReopenFrom | Html.TreeConstruction.cpp:282-320 | The place where reopening starts: everything after it is an entry that is not open, and what is before it is a marker or open. |
| HtmlStartTags.Reconstruction | Html.TreeConstruction.cpp:282-361 | Entry by entry: every entry after the last marker or open entry gets a new element of its token's name and attributes, on the stack in the order of the list, each a child of the one before, the first of the old top; nothing else changes. |
| HtmlFormatting.MarkersMatch | Html.TreeConstruction.cpp:442-501 | In a balanced state the i-th element from the top that takes a marker owns the i-th marker from the end. |
| HtmlFormatting.BalancedClear | Html.TreeConstruction.cpp:491-501 | Closing the topmost marked element and clearing to the last marker, which exists, keeps count and order of markers and entries. |
| HtmlFormatting.BalancedCut | Html.TreeConstruction.cpp:538-541 | Closing elements keeps count and order of markers and entries. |
| HtmlFormatting.BalancedMark | Html.TreeConstruction.cpp:442-447 | Opening an element with a marker keeps count and order of markers and entries. |
| HtmlFormatting.BalancedReopen | Html.TreeConstruction.cpp:347-361 | Reopening an entry keeps count and order of markers and entries. |
| HtmlFormatting.NothingMarkedAbove | Html.TreeConstruction.cpp:905-921 | Nothing that takes a marker is open above the element of an entry after the last marker. |
| HtmlFormatting.OrderedInsert | Html.TreeConstruction.cpp:1133-1141 | An element whose entry comes after the last marker can be put anywhere above those with an entry before it: entries on two sides of a marker still belong to elements in that order. |
| HtmlFormatting.AboveMarkers | Html.TreeConstruction.cpp:905-921 | An element whose entry comes after the last marker is above every element with an entry before it. |
| HtmlFormatting.ArkHolds | Html.TreeConstruction.cpp:449-501 | No sequence of pushes, markers, clears, removals and reconstructions ever puts more than three of a family between two markers; with the adoption agency among them it is part of `Running` (`HtmlState.ListBetweenTokens`). |
| HtmlFormatting.PushDropsEarliest | Html.TreeConstruction.cpp:449-489 | A push drops nothing, or exactly the earliest of three relatives after the last marker. |
| HtmlFormatting.NoahsArk | Html.TreeConstruction.cpp:449-489 | Position by position: if three entries after the last marker have the element's name and number of attributes, the first of them goes; if there are not three, none does. |
| HtmlFormatting.Earliest | Html.TreeConstruction.cpp:462-482 | The dropped entry is the first of its family after the last marker. |
| HtmlTreeConstruction.TreeConstruction.PushOntoActive | Html.TreeConstruction.cpp:449-489 | The forward scan that restarts at every marker computes the specification's push. |
| HtmlTreeConstruction.TreeConstruction.InsertMarker | Html.TreeConstruction.cpp:442-447 | A marker with a new identity ends the list. |
| HtmlTreeConstruction.TreeConstruction.ClearActiveToLastMarker | Html.TreeConstruction.cpp:491-501 | The popping loop ends and leaves what is before the last marker. |
| HtmlTreeConstruction.TreeConstruction.RemoveFromActive | Html.TreeConstruction.cpp:120-132 | Removes exactly the entry of the element, if there is one. |
| HtmlTreeConstruction.TreeConstruction.RemoveFromStack | Html.TreeConstruction.cpp:106-118 | Removes exactly the element, if it is open. |
| HtmlTreeConstruction.TreeConstruction.HasElementInScope | Html.TreeConstruction.cpp:654-781 | The downward search answers the scope question: some named element is met before anything that ends the scope. |
| HtmlTreeConstruction.TreeConstruction.HasElementInSelectScope | Html.TreeConstruction.cpp:690-740 | True if a named element or any element other than an option or optgroup is open, as the code has it. |
| HtmlTreeConstruction.TreeConstruction.GenerateImpliedEndTags | Html.TreeConstruction.cpp:241-271 | Pops exactly the topmost run of elements with implied end tags, other than the spared one. |
| HtmlStack.ImpliedStopsAbove | Html.TreeConstruction.cpp:241-271 | Implied end tags never remove the element that is about to be closed. |
| HtmlStack.InScopeAboveAnchor | Html.TreeConstruction.cpp:654-688 | Whatever a body's end tags find in scope lies above the body, cell or caption they are in. |
| HtmlStack.OtherMatchAboveAnchor | Html.TreeConstruction.cpp:1147-1186 | The same for end tags without a rule of their own. |
| HtmlStack.CellInScope | Html.TreeConstruction.cpp:4271-4299 | In a cell exactly the open cell's own element is a td or th in table scope. |
| HtmlStack.CaptionInScope | Html.TreeConstruction.cpp:3715-3745 | In a caption its caption is in table scope and the topmost. |
| HtmlStack.ListItemInScope | Html.TreeConstruction.cpp:2479-2500 | The list item that the search of an li start tag finds is in list item scope. |
| HtmlStack.ShapeOfMode | Html.TreeConstruction.cpp:543-641 | Reads the shape of the stack off the mode's zone. |
| HtmlStack.FlowShape | Html.TreeConstruction.cpp:543-641 | In a body, cell or caption: plain elements above the innermost of these. |
| HtmlStack.FlowRemove | Html.TreeConstruction.cpp:106-118 | Taking a plain element out, wherever it is, keeps the zone. |
| HtmlStack.OtherMatch | Html.TreeConstruction.cpp:1147-1186 | The match is the topmost element of the name, with no special element above it. |
| HtmlStack.ClosingPlace | Html.TreeConstruction.cpp:3090-3344 | What an end tag closes has the tag's name, or is a heading for a heading. |
| HtmlEndTags.EndOfFormatting | Html.TreeConstruction.cpp:3280-3296 | The end tags a, b, big, code, em, font, i, nobr, s, small, strike, strong, tt and u run the agency. |
| HtmlEndTags.EndOfBlock | Html.TreeConstruction.cpp:3090-3138 | The end tags of the blocks by name, and of button, dd, dt, listing and pre, close the topmost element of their name with all above it if that is in scope, and change nothing else or nothing at all. |
| HtmlEndTags.EndOfListItem | Html.TreeConstruction.cpp:3187-3211 | That of li the same, in list item scope. |
| HtmlEndTags.EndOfHeading | Html.TreeConstruction.cpp:3240-3279 | That of a heading closes the topmost of any heading in scope. |
| HtmlEndTags.EndOfParagraph | Html.TreeConstruction.cpp:3159-3186 | That of p closes the topmost p in button scope; without one a p is put into the tree and not left open. |
| HtmlEndTags.EndOfEmbedded | Html.TreeConstruction.cpp:3297-3324 | Those of applet, marquee and object close the element in scope and cut the list before its last marker. |
| HtmlEndTags.EndOfForm | Html.TreeConstruction.cpp:3139-3158 | That of form closes what an end tag may imply on top and takes the remembered form out wherever it is below that. |
| HtmlEndTags.EndOfOther | Html.TreeConstruction.cpp:1147-1186 | Every other one closes the topmost element of its name if nothing special is above it, and else nothing. |
| HtmlTreeConstruction.TreeConstruction.PopThrough | Html.TreeConstruction.cpp:3127-3136 | The popping loop terminates at the topmost match and cuts the stack just below it. |
| HtmlTreeConstruction.TreeConstruction.CloseElement | Html.TreeConstruction.cpp:3124-3137 | Implied end tags and the popping loop together cut the stack just below the topmost match. |
| HtmlTreeConstruction.TreeConstruction.AnyOtherEndTagInBody | Html.TreeConstruction.cpp:1147-1186 | Cuts the stack below the topmost element of the name unless a special element is in the way; then it is ignored. |
| HtmlTreeConstruction.TreeConstruction.ClearStackBackTo | Html.TreeConstruction.cpp:370-403 | Cuts the stack just above the topmost element of the context. |
| HtmlTreeConstruction.TreeConstruction.ResetInsertionMode | Html.TreeConstruction.cpp:543-641 | Finds the mode of the innermost body, cell or caption, which is the right one after a nested table or select closes. |
| HtmlTreeConstruction.TreeConstruction.StopParsing | Html.TreeConstruction.cpp:1404-1416 | Closes every element. |
| HtmlTreeConstruction.TreeConstruction.CloseInFlow | Html.TreeConstruction.cpp:3090-3138 | In a body, cell or caption an element in scope is closed and the rest stays sound. |
| HtmlTreeConstruction.TreeConstruction.EndBlock | Html.TreeConstruction.cpp:3090-3138 | Ignored exactly if out of scope; else the stack is cut below the topmost match. |
| HtmlTreeConstruction.TreeConstruction.EndHeading | Html.TreeConstruction.cpp:3240-3279 | The same for any of the six headings. |
| HtmlTreeConstruction.TreeConstruction.EndForm | Html.TreeConstruction.cpp:3139-3158 | Implied end tags, then the form itself is taken out wherever it is, unless there is none or it is out of scope. |
| HtmlTreeConstruction.TreeConstruction.CloseMarked | Html.TreeConstruction.cpp:3297-3324 | The stack is cut below the element, the list before its marker. |
| HtmlTreeConstruction.TreeConstruction.BodyEndsOther | Html.TreeConstruction.cpp:3090-3344 | Every other end tag of a body cuts the stack at `ClosingPlace`, and is ignored exactly if there is none; only applet, marquee and object clear the list; list, tree and form element are otherwise as before. |
| HtmlTreeConstruction.TreeConstruction.BodyEndTag | Html.TreeConstruction.cpp:3035-3344 | The end tags of a body do what `EndStep` says on stack, list, tree, form element and mode: the adoption agency for formatting elements, one closing place for the others. |
| HtmlTreeConstruction.TreeConstruction.CreateAnElement | Html.TreeConstruction.cpp:134-162 | A new identity, a new parentless node. |
| HtmlTreeConstruction.TreeConstruction.InsertAnElement | Html.TreeConstruction.cpp:174-206 | The element is pushed and becomes the last child of the old top. |
| HtmlTreeConstruction.TreeConstruction.InsertCharacter | Html.TreeConstruction.cpp:2270-2298 | Joins the text that ends the current node, or begins one. |
| HtmlTree.TextGrows | Html.TreeConstruction.cpp:2270-2298 | A character lengthens the text that ends the node by itself. |
| HtmlTree.EdgesOfAppended | Html.TreeConstruction.cpp:352-353 | Appending a child adds exactly one edge, from the new parent to the child, whose parent that is; every other node keeps its list and its parent. |
| HtmlTree.MovedKeeps | Html.TreeConstruction.cpp:1080-1082 | Moving a node below a node of lower rank keeps the links and the absence of cycles. |
| HtmlTree.SplicedKeeps | Html.TreeConstruction.cpp:1114-1118 | Taking over all children and becoming the last child keeps the links and the absence of cycles. |
| HtmlTree.NoLaterAncestor | Html.TreeConstruction.cpp:174-201 | No later entry of the stack is an ancestor of an earlier one. |
| HtmlTree.RankedIsAcyclic | Html.TreeConstruction.cpp:174-201 | A tree with ranks has no cycle, whatever its lists repeat. |
| HtmlTree.GrownConsistent | Html.TreeConstruction.cpp:174-201 | Ordinary insertion keeps every node listed once, by its own parent. |
| HtmlTreeConstruction.TreeConstruction.CommentHere | Html.TreeConstruction.cpp:2299-2309 | The comment becomes the last child of the current node. |
| HtmlTreeConstruction.TreeConstruction.DocumentComment | Html.TreeConstruction.cpp:1588-1598 | The comment becomes the last child of the document. |
| HtmlTreeConstruction.TreeConstruction.CharacterHere | Html.TreeConstruction.cpp:3353-3360 | The character lengthens the current node's text. |
| HtmlTreeConstruction.TreeConstruction.BodyCharacter | Html.TreeConstruction.cpp:2270-2298 | A null is ignored and changes nothing; any other character goes to the end of the current node once the formatting elements are reopened. |
| HtmlTreeConstruction.TreeConstruction.BodyFlowStartTag | Html.TreeConstruction.cpp:2319-2999 | Start tags that close nothing first do what `StartStep` says: formatting elements go on the reopened stack and in the list, embedded ones there with a marker, void ones below the current node without staying open, ruby parts after implied end tags, parts of tables nowhere. |
| HtmlTreeConstruction.TreeConstruction.BodyFormatting | Html.TreeConstruction.cpp:2658-2677 | On the reopened stack the new element is on top, the last child of the old top, and in the last entry of the list. |
| HtmlTreeConstruction.TreeConstruction.BodyAnchor | Html.TreeConstruction.cpp:2611-2657 | As above, after the adoption agency has ended the last `a` after the last marker, if there is one, and its element and entry are dropped wherever they are; it fails exactly if that agency does, with nothing changed. |
| HtmlTreeConstruction.TreeConstruction.BodyNobr | Html.TreeConstruction.cpp:2678-2695 | As above, after the adoption agency has ended a `nobr` in scope on the reopened stack and formatting is reopened again; it fails exactly if that agency does, with nothing changed but the reopening. |
| HtmlTreeConstruction.TreeConstruction.BodyEmbedded | Html.TreeConstruction.cpp:2696-2707 | On the reopened stack the element is pushed and a marker ends the list. |
| HtmlTreeConstruction.TreeConstruction.InsertMarked | Html.TreeConstruction.cpp:2696-2707 | Element and marker go in together, and the balance holds. |
| HtmlTreeConstruction.TreeConstruction.BodyBlock | Html.TreeConstruction.cpp:2386-2417 | A p in button scope is closed first; then the element is pushed, the last child of the old top. |
| HtmlTreeConstruction.TreeConstruction.BodyHeading | Html.TreeConstruction.cpp:2418-2442 | A p in button scope, then a heading that is the current node, are closed first. |
| HtmlTreeConstruction.TreeConstruction.BodyPre | Html.TreeConstruction.cpp:2443-2458 | As a block, and the next line feed will be dropped. |
| HtmlTreeConstruction.TreeConstruction.BodyForm | Html.TreeConstruction.cpp:2459-2478 | Ignored exactly if a form is remembered; else the new form is the one remembered. |
| HtmlTreeConstruction.TreeConstruction.BodyListItem | Html.TreeConstruction.cpp:2479-2514 | The innermost list item found before a special element, and a p in button scope, are closed first. |
| HtmlStartTags.StartOfListItem | Html.TreeConstruction.cpp:2479-2514 | The li lands on the stack below the innermost open li with only address, div, p and elements that are not special above it, if there is one, and without the p in button scope of that; so it never nests in such an li. |
| HtmlStartTags.StartOfBlock | Html.TreeConstruction.cpp:2386-2417 | A block by name lands on the stack without the p in button scope, as the last child of its top; list and identities are otherwise unchanged. |
| HtmlStartTags.StartOfForm | Html.TreeConstruction.cpp:2459-2478 | A form, a table and a rule the same: the form unless one is remembered, the table unless in quirks mode, the rule without staying open. |
| HtmlStartTags.StartOfHeading | Html.TreeConstruction.cpp:2418-2442 | A heading also closes a heading that is on top then. |
| HtmlStartTags.StartOfButton | Html.TreeConstruction.cpp:2594-2610 | A button lands where no button is in scope, on a stack that is cut at buttons only, and not at all without one in scope. |
| HtmlStartTags.StartOfOption | Html.TreeConstruction.cpp:2916-2927 | An option or option group closes an option on top. |
| HtmlStartTags.StartOfRuby | Html.TreeConstruction.cpp:2928-2940 | A part of a ruby closes the run on top of dd, dt, li, option, optgroup, p, rp and rt exactly if a ruby is in scope. |
| HtmlStartTags.StartOfVoid | Html.TreeConstruction.cpp:2722-2763 | Elements without contents become the last child of the reconstructed current node and change neither stack nor list; an image becomes an img. |
| HtmlStartTags.StartOfQuietVoid | Html.TreeConstruction.cpp:2764-2778 | Head content without contents, and menuitem, param, source and track, the same without reconstruction. |
| HtmlStartTags.StartOfText | Html.TreeConstruction.cpp:2884-2894 | Elements that hold text only are opened on the stack as it is. |
| HtmlStartTags.ModeOfStart | Html.TreeConstruction.cpp:2266-2999 | Which start tags of a body change the mode, by name. |
| HtmlStartTags.StartOfFormatting | Html.TreeConstruction.cpp:2658-2677 | A formatting element is opened on the reconstructed stack and entered in the list. |
| HtmlStartTags.StartOfAnchor | Html.TreeConstruction.cpp:2611-2657 | An a after an a: the earlier one's element is neither open nor in the list when the new one is opened and entered, if the agency does not fail. |
| HtmlStartTags.StartOfNobr | Html.TreeConstruction.cpp:2678-2695 | A nobr is opened after reconstruction if none is in scope, and else after the agency and another reconstruction. |
| HtmlStartTags.StartOfEmbedded | Html.TreeConstruction.cpp:2696-2707 | An applet, marquee or object is opened on the reconstructed stack with a marker at the end of the list. |
| HtmlStartTags.StartOfNothing | Html.TreeConstruction.cpp:2319-2385 | Start tags that only belong elsewhere change nothing. |
| HtmlStartTags.StartOfOther | Html.TreeConstruction.cpp:2941-2999 | Every start tag without a rule of its own is opened on the reconstructed stack. |
| HtmlStartTags.StartOfIsindex | Html.TreeConstruction.cpp:2806-2853 | After an isindex nothing of its form is open, only what was reconstructed for its label, and four nodes were made besides. |
| HtmlStartTags.FormRemembered | Html.TreeConstruction.cpp:2459-2478 | The first form is remembered until an end tag of a form. |
| HtmlStartTags.CharacterInBody | Html.TreeConstruction.cpp:2270-2298 | A character ends the text of the current node after reconstruction; null changes nothing. |
| HtmlStack.ListItemIs | Html.TreeConstruction.cpp:2486-2505 | The search for an li finds the topmost li and stops at special elements other than address, div and p. |
| HtmlTreeConstruction.TreeConstruction.FindListItem | Html.TreeConstruction.cpp:2486-2505 | Found exactly if some li is open with no li above it and nothing special above it but address, div and p. |
| HtmlTreeConstruction.TreeConstruction.BodyButton | Html.TreeConstruction.cpp:2594-2610 | With a button in scope the token is processed again on a shorter stack; else the element is pushed. |
| HtmlTreeConstruction.TreeConstruction.BodyTable | Html.TreeConstruction.cpp:2708-2721 | Unless in quirks mode a p in button scope is closed; the table is pushed and the mode is in-table. |
| HtmlTreeConstruction.TreeConstruction.BodyHr | Html.TreeConstruction.cpp:2779-2797 | A p in button scope is closed; the rule becomes the last child of the current node and does not stay open. |
| HtmlTreeConstruction.TreeConstruction.BodyVoid | Html.TreeConstruction.cpp:2722-2742 | Formatting elements are reopened; the element becomes the last child of the current node and does not stay open. |
| HtmlTreeConstruction.TreeConstruction.BodyInput | Html.TreeConstruction.cpp:2743-2763 | The same for input; the frameset flag survives exactly with a type that is not hidden. |
| HtmlTreeConstruction.TreeConstruction.BodyRuby | Html.TreeConstruction.cpp:2928-2940 | Implied end tags only with a ruby in scope. |
| HtmlTreeConstruction.TreeConstruction.BodyRawText | Html.TreeConstruction.cpp:2884-2894 | The element is pushed and the mode is text, to return to the current one. |
| HtmlTreeConstruction.TreeConstruction.BodySelect | Html.TreeConstruction.cpp:2895-2915 | The mode is in-select in a body and in-select-in-table in a cell or caption. |
| HtmlTreeConstruction.TreeConstruction.BodyUnmodelled | Html.TreeConstruction.cpp:2515-2578 | A dd or dt start tag is pushed if nothing has to be closed for it, and is left out exactly if a dd, a dt or a p in button scope has to be. |
| HtmlTreeConstruction.TreeConstruction.BodySimulatingStartTag | Html.TreeConstruction.cpp:2386-2940 | All start tags that simulate others first do what `StartStep` says on stack, list, tree, form element and mode, isindex with its form, label and rules included, and fail exactly if what they simulate does. |
| HtmlStack.ClosesLateIff | Html.TreeConstruction.cpp:1489-1504 | `close_a_p_element` and the dd and dt start tags close the innermost element of the name if and only if it is the current one after implied end tags and the element right below it has the same name; with anything above it they leave it open, and without another one below they run off the stack. |
| HtmlStack.LateParagraph | Html.TreeConstruction.cpp:2570-2577 | A p directly in a body is such a case: it is in button scope and the loop runs off the stack. |
| HtmlTreeConstruction.TreeConstruction.CloseParagraph | Html.TreeConstruction.cpp:2386-2417 | The stack becomes `WithoutP`: cut below the topmost p exactly if that is in button scope. |
| HtmlTreeConstruction.TreeConstruction.BodyEndsParagraph | Html.TreeConstruction.cpp:3159-3186 | A p in button scope is closed; without one a p is opened and the token processed again, which terminates. |
| HtmlTreeConstruction.TreeConstruction.BodyEndsHtml | Html.TreeConstruction.cpp:3081-3089 | The end tag of html moves past the body with nothing else changed, and is processed again there. |
| HtmlTreeConstruction.TreeConstruction.BodyRules | Html.TreeConstruction.cpp:2266-3345 | The rules of a body, and of a cell or caption where theirs refer to it, do exactly what `BodyStep` says to stack, list, tree, identities, form element and mode, for every token but the end tag of html, and fail exactly if `FaultOf` says so. |
| HtmlTreeConstruction.TreeConstruction.InitialRules | Html.TreeConstruction.cpp:1561-1640 | A doctype becomes a child of the document and sets quirks mode or not; a token that goes on to the next mode changes nothing but the quirks flag. |
| HtmlTreeConstruction.TreeConstruction.BeforeHtmlRules | Html.TreeConstruction.cpp:1642-1755 | The root is made from its own start tag, and then attached to the document, or without attributes for a token that goes on, and then not attached. |
| HtmlTreeConstruction.TreeConstruction.InsertRoot | Html.TreeConstruction.cpp:1689-1753 | The root alone is open; an implied root is not a child of the document. |
| HtmlTreeConstruction.TreeConstruction.BeforeHeadRules | Html.TreeConstruction.cpp:1757-1855 | A head is pushed and remembered, from its own start tag, or pushed without attributes for a token that goes on. |
| HtmlTreeConstruction.TreeConstruction.HeadRules | Html.TreeConstruction.cpp:1857-2032 | Void head content becomes a child of the head, other head content is opened in text mode, noscript in its own; the head's end tag, and a token that goes on, closes the head. |
| HtmlRegionTags.ContentOfHead | Html.TreeConstruction.cpp:1908-1984 | In a head the start tags base, basefont, bgsound, link and meta leave stack and mode as they were; noframes, script, style and title are opened and make the mode text. In a noscript the same for the names allowed there. |
| HtmlRegionTags.StartOfHead | Html.TreeConstruction.cpp:1800-1820 | Where head, body, frameset and frame are opened, and the mode they lead to. |
| HtmlRegionTags.EndOfHead | Html.TreeConstruction.cpp:1993-2003 | Head, noscript and frameset end with their end tag, with the mode they lead to. |
| HtmlRegionTags.LateContentOfHead | Html.TreeConstruction.cpp:2201-2216 | Head content after the head becomes a child of the head and leaves the stack without the head. |
| HtmlTreeConstruction.TreeConstruction.NoscriptRules | Html.TreeConstruction.cpp:2034-2133 | Its content goes below the noscript; its end tag, and a token that goes on, closes it. |
| HtmlTreeConstruction.TreeConstruction.AfterHeadRules | Html.TreeConstruction.cpp:2135-2264 | Head content goes into the head, which is put back on the stack for it and taken off again wherever it is; a token that goes on has opened a body. |
| HtmlTreeConstruction.TreeConstruction.OpenBody | Html.TreeConstruction.cpp:2186-2194 | The body is pushed on the root. |
| HtmlTreeConstruction.TreeConstruction.TextRules | Html.TreeConstruction.cpp:3347-3408 | Characters go to the text of the current node; the end tag and the end of the file pop it and return to the original mode. |
| HtmlTreeConstruction.TreeConstruction.TableRules | Html.TreeConstruction.cpp:3410-3636 | The rules of a table, and of its bodies and rows where theirs refer to it, do what `RegionStep` says. |
| HtmlRegions.PartInSameTable | Html.TreeConstruction.cpp:3459-4347 | From wherever in a table the start tag of a part is met, a cell or a caption included, the innermost table stays where it is with everything below it, the stack takes the shape of the part's mode, and the part is the current node with the attributes of the tag (a col excepted, which does not stay open). |
| HtmlRegions.TableEndCloses | Html.TreeConstruction.cpp:3567-4347 | From wherever in a table its end tag is met, exactly the innermost table is closed, with everything in it, and what is left is a body, a cell or a caption. |
| HtmlRegionTags.EndOfCell | Html.TreeConstruction.cpp:4266-4299 | The end tag of the open cell or of the caption cuts the stack at that element and the list before the last marker. |
| HtmlRegionTags.EndOfRow | Html.TreeConstruction.cpp:4145-4164 | The end tags of a row, a table body and a column group close the current node and lead to the mode around it. |
| HtmlRegionTags.ListOfPart | Html.TreeConstruction.cpp:3459-4347 | When a part of a table begins, what was begun in an open cell or caption is gone from the list, and a new cell or caption has a marker after the rest. |
| HtmlTreeConstruction.TreeConstruction.TablePart | Html.TreeConstruction.cpp:3459-3500 | A part of a table opens right in it, or after the column group or body it needs was made up: by one `PartStep` in all. |
| HtmlTreeConstruction.TreeConstruction.TableInTable | Html.TreeConstruction.cpp:3501-3514 | A table in a table, its body or row first closes the one it is in, with everything in it, and is processed again in the mode of what is left. |
| HtmlTreeConstruction.TreeConstruction.TableEndTag | Html.TreeConstruction.cpp:3567-3613 | The end tag of the table closes exactly the table on top and resets the mode; any other changes nothing. |
| HtmlTreeConstruction.TreeConstruction.CloseTable | Html.TreeConstruction.cpp:3579-3591 | The table is the top of the stack; popping it leaves the mode of what is below. |
| HtmlTreeConstruction.TreeConstruction.TableCharacter | Html.TreeConstruction.cpp:3416-3437 | Characters are collected for the mode below; the pending list starts empty. |
| HtmlTreeConstruction.TreeConstruction.TableTextRules | Html.TreeConstruction.cpp:3638-3703 | Characters are collected until another token ends them. |
| HtmlTreeConstruction.TreeConstruction.FlushTableText | Html.TreeConstruction.cpp:3667-3696 | If all pending characters are white space they all go, in order, to the end of the current node; else none does. |
| HtmlTreeConstruction.TreeConstruction.CaptionRules | Html.TreeConstruction.cpp:3705-3823 | The caption's end tag cuts the stack below the caption and the list before its marker; any part of a table does the same first; everything else does what a body does. |
| HtmlTreeConstruction.TreeConstruction.OpenCaption | Html.TreeConstruction.cpp:3459-3468 | First a marker, then the element on top of the stack; the mode is in-caption. |
| HtmlTreeConstruction.TreeConstruction.ColumnGroupRules | Html.TreeConstruction.cpp:3825-3961 | A col becomes a child of the group and does not stay open; the group's end tag closes it; any other part of a table first does. |
| HtmlTreeConstruction.TreeConstruction.TableBodyRules | Html.TreeConstruction.cpp:3963-4097 | A row is opened in the body, for a cell with the row made up first; the body's end tag closes it; any other part of a table first does. |
| HtmlTreeConstruction.TreeConstruction.LeaveTableBody | Html.TreeConstruction.cpp:3990-4065 | The body on top is closed by its own name, which is always in scope, nothing else changes, and the token is processed again in the table. |
| HtmlTreeConstruction.TreeConstruction.RowRules | Html.TreeConstruction.cpp:4099-4224 | A cell is opened in the row with a marker; the row's end tag closes it; any other part of a table first does. |
| HtmlTreeConstruction.TreeConstruction.OpenCell | Html.TreeConstruction.cpp:4109-4119 | The cell and a marker go in together. |
| HtmlTreeConstruction.TreeConstruction.LeaveRow | Html.TreeConstruction.cpp:4120-4194 | The row on top is closed, nothing else changes, and the token is processed again in the table body. |
| HtmlTreeConstruction.TreeConstruction.CellRules | Html.TreeConstruction.cpp:4226-4347 | The cell's end tag cuts the stack below the cell and the list before its marker; any part of a table does the same first; everything else does what a body does. |
| HtmlTreeConstruction.TreeConstruction.LeaveCell | Html.TreeConstruction.cpp:405-418 | The stack is cut below the cell, the list before its marker, and the token is processed again in the row. |
| HtmlTreeConstruction.TreeConstruction.CloseMarkedRegion | Html.TreeConstruction.cpp:4271-4299 | Closing a cell or caption cuts the stack below it and the list before its marker. |
| HtmlTreeConstruction.TreeConstruction.SelectRules | Html.TreeConstruction.cpp:4349-4535 | Options and option groups open on the base left by closing what is on top; their end tags close what they find there; the end tag of select, and a select in it, closes the select with the mode reset; a character lengthens the current node's text. |
| HtmlTreeConstruction.TreeConstruction.OpenOption | Html.TreeConstruction.cpp:4397-4413 | An option on top, and for an option group the group below it, are closed first. |
| HtmlTreeConstruction.TreeConstruction.EndOptgroup | Html.TreeConstruction.cpp:4452-4469 | An option directly in an option group on top is closed with it. |
| HtmlTreeConstruction.TreeConstruction.CloseSelect | Html.TreeConstruction.cpp:4482-4505 | The select is always found; the stack is cut below it and the mode reset. |
| HtmlRegionTags.StartOfOptionInSelect | Html.TreeConstruction.cpp:4397-4414 | An option goes below a group or the select, a group below the select: the option on top, and for a group the group below it, are closed. |
| HtmlRegionTags.EndOfOptionInSelect | Html.TreeConstruction.cpp:4450-4481 | The end tag of an option closes an option on top, that of a group a group on top with an option directly in it. |
| HtmlRegionTags.EndOfSelect | Html.TreeConstruction.cpp:4482-4505 | The end tag of a select, and a select in it, cuts the stack at the innermost select and resets the mode. |
| HtmlRegionTags.ModeOfFlow | Html.TreeConstruction.cpp:543-641 | The mode a closed table or select goes back to is that of the innermost body, cell or caption. |
| HtmlTreeConstruction.TreeConstruction.SelectInTableRules | Html.TreeConstruction.cpp:4537-4611 | Parts of tables close the select, with the mode reset, and are processed again; the rest is as in a select. |
| HtmlTreeConstruction.TreeConstruction.AfterBodyRules | Html.TreeConstruction.cpp:4613-4715 | White space goes where it would in the body; the end tag of html only changes the mode; a token that goes on leads back into the body with nothing changed. |
| HtmlTreeConstruction.TreeConstruction.FramesetRules | Html.TreeConstruction.cpp:4717-4850 | A frameset is opened, a frame is a child that does not stay open, the end tag closes the frameset and leaves the mode exactly if none is left; noframes is opened as text. |
| JsonFrames.WriteDocument | Json.Text.cpp:21-118 | The tokens of a document leave a text done, on the last of them, with the value the document evaluates to over the domain; an object has the names of its members, each with the value of its first member. |
| JsonFrames.WriteTokens | Json.Text.cpp:21-118 | A text in progress takes every token; how far it gets is a function of the tokens alone. |
| JsonFrames.ArrayFrame.WriteAll | Json.ArrayFrame.cpp:118-140 | For every template and domain, its tokens written one at a time to a fresh value frame make it done on exactly the last, with the template's value over that domain. |
| JsonFrames.ArrayFrame.Replay | Json.ArrayFrame.cpp:112-145 | The recording, replayed into a fresh frame per further match, appends one value per match in order; no replayed frame fails or is written after it is done, and the loop ends with the matches. |
| JsonFrames.ArrayFrame.PushMatches | Json.ArrayFrame.cpp:107-145 | A scripted element contributes one value per successive match, none if there is no match, and later plain elements see the array's own domain again. |
| JsonFrames.ArrayFrame.FindNextScriptElement | Json.ArrayFrame.cpp:21-36 | Success exactly if there is a further match; the element domain is that match, or the array's own. |
| JsonFrames.ArrayFrame.Write | Json.ArrayFrame.cpp:38-46 | The recording holds exactly the element's tokens, and the frame's parse takes the one step its token means, whatever the domain. |
| JsonFrames.ArrayFrame.WriteUnobserved | Json.ArrayFrame.cpp:48-207 | Every state of the array frame follows the grammar step; the state that would throw is never met. |
| JsonFrames.ArrayFrame.BeginExecution | Json.ArrayFrame.cpp:85-97 | A script that is done starts its element over the first match, recording, or over the array's domain, not recording. |
| JsonFrames.ArrayFrame.WriteElement | Json.ArrayFrame.cpp:149-165 | A plain element's value over the array's domain is appended when its frame is done. |
| JsonFrames.ArrayFrame.WriteBody | Json.ArrayFrame.cpp:99-147 | The scripted element's frame is written until it is done; then the matches are pushed. |
| JsonFrames.ValueFrame.Write | Json.ValueFrame.cpp:27-179 | The value frame follows the grammar step; done, its value is the template's over its domain. |
| JsonFrames.ValueFrame.Start | Json.ValueFrame.cpp:31-108 | The first token makes an atom, a sub-frame or a failure. |
| JsonFrames.ValueFrame.WriteScript | Json.ValueFrame.cpp:110-141 | A script in value position becomes the text it selects, or null. |
| JsonFrames.ValueFrame.WriteArray | Json.ValueFrame.cpp:143-158 | The array frame's elements become the value. |
| JsonFrames.ValueFrame.WriteObject | Json.ValueFrame.cpp:160-174 | The object frame's members become the value. |
| JsonFrames.ObjectFrame.Write | Json.ObjectFrame.cpp:22-160 | The object frame follows the grammar step; an empty name state may end the object only before the first member. |
| JsonFrames.ObjectFrame.WriteAim | Json.ObjectFrame.cpp:53-80 | A script re-aims all later members at its first match, or back at the object's own domain. |
| JsonFrames.ObjectFrame.WriteMemberValue | Json.ObjectFrame.cpp:98-114 | A member's value over the current aim is added; every name that was present keeps its value, and only this name is new. |
| JsonMeaning.MembersByName | Json.ObjectFrame.cpp:98-114 | For any members: a name is in the object exactly if some member has it, with the value of the first such member's template over the domain in force there, which is what the nearest scripts before it aim at, or the object's own. |
| JsonMeaning.DocumentByName | Json.ObjectFrame.cpp:22-160 | The same for the object a document evaluates to, over the domain its root scripts leave. |
| JsonMeaning.ItemPerMatch | Json.ArrayFrame.cpp:107-145 | A scripted element stands for one value per match, in the order of the matches. |
| JsonMeaning.ItemsInOrder | Json.ArrayFrame.cpp:149-165 | An array holds the values of its elements one after the other. |
| JsonMeaning.RootDomainsCompose | Json.Text.cpp:60-83 | Scripts before the root act one after the other, each on the domain the ones before it have found. |
| JsonNotation.NamesOfScript | Json.ValueFrame.cpp:110-121 | Which part of a query each name of a script stands for, for all nine forms of a script without parameter. |
| JsonNotation.ParameterOfScript | Json.ValueFrame.cpp:110-121 | A parameter is evaluated over the same domain and changes nothing else of the query. |
| JsonFrames.ObjectFrame.WriteMemberSeparator | Json.ObjectFrame.cpp:116-133 | The members read are those of the specification when the object ends. |
| JsonFrames.ScriptFrame.Write | Json.ValueFrame.cpp:110-121 | The script frame follows the grammar step; done, its query is the script's. |
| JsonFrames.ScriptFrame.WriteParameter | Json.ArrayFrame.cpp:75-86 | A parameter is a value frame of its own over the same domain. |
| JsonFrames.TextFrame.Write | Json.Text.cpp:21-118 | The text follows the grammar step. |
| JsonFrames.TextFrame.WriteScript | Json.Text.cpp:60-83 | A script before the root replaces the domain of everything after it by its first match, if it has one. |
| JsonFrames.TextFrame.WriteRoot | Json.Text.cpp:25-58 | Only an array or an object can be the root. |
| JsonGrammar.DoneIffDocument | Json.Text.cpp:25-118 | A text is done on a token sequence if and only if that is the token sequence of a document, which it then is. |
| JsonGrammar.InProgressIffPrefix | Json.Text.cpp:25-118 | A text is in progress if and only if the tokens are a proper prefix of some document's. |
| JsonGrammar.FailsAtOnce | Json.Text.cpp:25-118 | A text fails on the first token with which no document continues, and on no other. |
| JsonGrammar.NeverThrows | Json.Text.cpp:60-118 | While a text is in progress the unhandled-state throws are unreachable in every frame. |
| JsonGrammar.AcceptsJsonTexts | Json.Text.cpp:25-118 | On tokens without scripts a text is done if and only if they are a JSON text of section 2 of RFC 4627, and in progress if and only if they are a proper prefix of one. |
| JsonNotation.AcceptsArraysAndObjects | Json.Text.cpp:25-118 | The same against the grammar of section 2 of RFC 4627 stated on token sequences alone, without parse trees: done exactly on its arrays and objects, in progress exactly on what can still become one. |
| JsonGrammar.TemplateRuns | Json.ValueFrame.cpp:27-179 | The tokens of any template lead a value frame from its start, through states in progress only, to done with that template. |
| JsonGrammar.ItemRuns | Json.ArrayFrame.cpp:48-207 | The same for an array element, plain or scripted, after any elements. |
| JsonGrammar.MembersRuns | Json.ObjectFrame.cpp:22-160 | The same for members, each with any number of scripts before it. |
| JsonGrammar.ScriptRuns | Json.ValueFrame.cpp:110-121 | The same for scripts, whose parameters are templates again. |
| JsonGrammar.DocumentRuns | Json.Text.cpp:21-118 | The same for documents. |
| JsonGrammar.ValueReads | Json.ValueFrame.cpp:27-179 | Conversely no token is lost: a value frame that has not failed stands for exactly the tokens it was given. |
| JsonGrammar.ArrayReads | Json.ArrayFrame.cpp:48-207 | The same for an array frame. |
| JsonGrammar.ObjectReads | Json.ObjectFrame.cpp:22-160 | The same for an object frame. |
| JsonGrammar.ScriptReads | Json.ArrayFrame.cpp:75-86 | The same for a script frame. |
| JsonGrammar.TextReads | Json.Text.cpp:21-118 | The same for a text. |
| JsonGrammar.CompletesText | Json.Text.cpp:25-118 | Every text in progress can be completed, without beginning another script. |
| JsonGrammar.RecordingContinues | Json.ArrayFrame.cpp:118-140 | A recording of one element is in progress on each of its tokens for any frame it is replayed into. |
| JsonEval.NextMatch | Json.ArrayFrame.cpp:21-36 | The values over the matches after a node are that of the next match and those over the matches after it. |
| JsonValues.RoundTrip | Json.Text.cpp:35-118 | The tokens that spell out any array or object, members in any order, nested to any depth, are read back as exactly that value. |
| JsonValues.SpellingWrites | Json.ObjectFrame.cpp:82-133 | Every value has such a spelling. |
| JsonValues.MembersReadBack | Json.ObjectFrame.cpp:82-133 | Distinct names read back as exactly the map of the members, whatever their order. |
| WebForm.EscapeInPlace | Web.Form.cpp:227-262 | The loop whose buffer grows under its own index terminates and gives the concatenation of the escapes of the original bytes: inserted digits are visited again unchanged, nothing is escaped twice. |
| WebForm.EncodeValue | Web.Form.cpp:210-269 | A value is encoded as UTF-8, then escaped byte by byte. |
| WebForm.EscapeIsClean | Web.Form.cpp:227-262 | No escaped byte is an ampersand or an equals sign, and all are ASCII. |
| FormSpelling.SentAs | Web.Form.cpp:227-262 | Which bytes are sent as they are, by character, and that the others are sent with upper-case digits. |
| FormSpelling.Utf8Reads | Web.Form.cpp:210-226 | Every code point is read back from the bytes it is sent as by the arithmetic of section 3 of RFC 3629. |
| WebForm.DecodeValue | Web.Form.cpp:294-319 | The decoding loop computes `Unescape`: plus is a space, a per cent sign with two hexadecimal digits a byte, anything else itself. |
| FormSpelling.UnescapeIff | Web.Form.cpp:294-319 | What a text is read as, for every text: a plus sign is a space, a per cent sign with two hexadecimal digits of either case the byte they spell, every other character itself, a per cent sign without such digits included. |
| FormSpelling.SpellingIsRead | Web.Form.cpp:294-319 | Whichever bytes a sender escapes, and in whichever case, the bytes come back. |
| FormSpelling.NameEndsAtFirstEquals | Web.Form.cpp:343-361 | The name of a field ends at its first equals sign; without one all of it is the name and the value is empty. |
| WebForm.UnescapeEscape | Web.Form.cpp:227-319 | Decoding undoes escaping, for every byte string. |
| WebForm.EscapeInjective | Web.Form.cpp:227-262 | So different byte strings have different escapes. |
| WebForm.StrictlySplitAString | Web.Form.cpp:271-292 | The loop computes `Split`. |
| WebForm.SplitJoin | Web.Form.cpp:271-292 | Splitting undoes joining for tokens free of the delimiter, if the last is not empty. |
| WebForm.JoinSplit | Web.Form.cpp:271-292 | Joining undoes splitting for every input, but for one trailing delimiter. |
| WebForm.SplitTokensAreClean | Web.Form.cpp:271-292 | No token holds the delimiter. |
| WebForm.EncodeEntry | Web.Form.cpp:430-448 | A hidden `_charset_` entry sends the encoding's name; names and values are escaped. |
| WebForm.UrlEncode | Web.Form.cpp:392-485 | The whole data set: the payload of the specification, with its exact fault, the entries overwritten by their encodings. |
| WebForm.WireFailsIff | Web.Form.cpp:450-478 | Encoding fails if and only if the first entry is a text field named isindex without a value. |
| WebForm.LeadingIsindexIff | Web.Form.cpp:450-458 | The encoder tests names that are already escaped; that comes to the test on the names it was given. |
| WebForm.WireIsJoin | Web.Form.cpp:428-478 | The payload is the pairs joined by ampersands. |
| WebForm.DecodeField | Web.Form.cpp:341-386 | One field: a `_charset_` field names the decoder for itself and what follows, where its value as decoded is the label, because value and label are one string; the first of equal names stays. |
| WebForm.UrlDecode | Web.Form.cpp:321-390 | The whole payload, with the isindex convention for a first string without an equals sign; it fails if and only if the label in force at some field has no decoder. |
| WebForm.DecodingFailsIff | Web.Form.cpp:321-390 | Decoding fails if and only if at some field the label in force, which earlier `_charset_` fields of the payload give, has no decoder. |
| WebForm.DecodeStringFailsIff | Web.Form.cpp:354-384 | Field by field: the label the next field starts from is the re-decoded value of the last `_charset_` field, not the value sent. |
| WebForm.UnknownCharset | Web.Form.cpp:354-384 | The payload `_charset_=foo` cannot be decoded without a decoder for foo, whatever encoding was asked for. |
| WebForm.RoundTrip | Web.Form.cpp:321-485 | Decoding an encoded data set gives back its fields, for ASCII names and values, absent values coming back empty. |
| WebForm.WireOfIsindex | Web.Form.cpp:450-478 | With a leading isindex field the payload is its bare value and the pairs of the others, joined by ampersands. |
| WebForm.IsindexRoundTrip | Web.Form.cpp:321-485 | A data set with a leading isindex field comes back with that value under the empty name if and only if something is sent: not if its value is empty and it is alone. |
| WebForm.FieldsByName | Web.Form.cpp:321-390 | Name by name: exactly the names sent, each with the value of its first entry. |
| WebForm.StringArrives | Web.Form.cpp:321-390 | One pair arrives as its field. |
| WebForm.SurvivesTheWireIffAscii | Web.Form.cpp:354-384 | Outside ASCII the round trip is lost: a value survives the US-ASCII stage of the decoder if and only if it is ASCII. |

## Left out

- Foster parenting and "anything else" in a table: the code only logs there (Html.TreeConstruction.cpp:273-276, 643-652), and so the model does nothing.
- Foreign content, and `svg` and `math` start tags: nothing is pushed although a self-closing one pops (Html.TreeConstruction.cpp:2941-2976); in the model they stop with `NotModelled`.
- HtmlTreeConstruction.TreeConstruction.BodyUnmodelled: a dd or dt start tag that has something to close stops with `NotModelled`, because the loops of that branch and of `close_a_p_element` test the new current node instead of the popped one (Html.TreeConstruction.cpp:1489-1504, 2525-2575); when it does is exact, and HtmlStack.ClosesLateIff gives what those loops do, for every stack.
- Doctype checks and quirks detection: whether a doctype means quirks mode is part of its token.
- HtmlStartTags.StartOfIsindex: is for a stack on which no second p is in button scope once the first is closed; with one, the rule in the form would close the form.
- Fragment parsing: no context element; the branch of the mode reset that would assign through its reference at the bottom of the stack (Html.TreeConstruction.cpp:551-558) is not reached, which is what `ResetInsertionMode` requires a body for.
- Tokenizer states, self-closing acknowledgement, encoding changes, script execution, parse error logging, namespaces and form owners.
- Attributes that a second html or body start tag would add to an element (not implemented in the code either).
- The node tree is a map of identities to nodes that methods reassign, not a heap of shared objects; parents and children are identities.
- HtmlFormatting.ArkHolds: is about runs of the list by itself, without the adoption agency; HtmlState.ListBetweenTokens has it with the agency, for every state between tokens.
- HtmlTree.AdoptionKeepsTree: does not say that every node is listed by its parent alone, which is false; HtmlAdoption.RoundConsistentIff gives the exact condition.
- HtmlTreeConstruction.TreeConstruction.WriteElement: which step a token takes is stated for the tokens that `HtmlBody.HasStep` and `HtmlRegions.HasRegionStep` list; for the others (before a head, in a table what only foster parenting would place, in a select the start tags that leave it, after a body and after framesets) the contract fixes the invariant and the fault, and the contracts of the mode rules say what changes before the token goes on.
- `HtmlBody.BodyEffect` for the end tag of html in a body: it is processed again after the body; BodyEndsHtml and AfterBodyRules state the two halves.
- The frameset flag: whether it is kept or cleared is stated only by the rules whose contract mentions it.
- `Script::Execute` (Json.Script.cpp) is a pair of uninterpreted functions with finitely many successive matches; the HTML and JSON tokenizers, and the text of documents, are not modelled.
- Values under construction: the arrays and objects a JSON frame fills are seen when it is done.
- JSON numbers are reals; their lexical form belongs to the tokenizer.
- `construct_form_data_set`, `Submit`, `construct_request` and the control setters of Web.Form.cpp: filters and network plumbing.
- Character encodings other than UTF-8 and US-ASCII enter the form decoder as a table of functions.
- WebForm.RoundTrip: is for ASCII, which is what the code supports; WebForm.SurvivesTheWireIffAscii shows that it fails for every other value. A field named `_charset_` is admitted only as the hidden field it is meant to be, since any other value of it would select a decoder; a leading isindex field, which is sent without its name, is the subject of WebForm.IsindexRoundTrip.
- WebForm.IsindexRoundTrip: is for a leading isindex field with a value; without one there is no payload (WebForm.WireFailsIff).
- The remaining components (networking, TLS, HTTP, cookies, scraping, services, console).
