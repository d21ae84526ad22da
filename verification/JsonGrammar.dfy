/**
 The frames accept exactly the token strings of templates.

 Going forward, a token that does not fail a frame is the next token of what its partial parse
 stands for, so nothing that was read is lost.  Going backward, every partial parse is reached by
 feeding its own tokens, and every live one can be completed.  Together: a text is done on exactly
 the token strings of documents, in progress on exactly their proper prefixes, and it fails on the
 first token with which no document continues.
 */
module JsonGrammar {
  import opened Wrappers
  import opened JsonTemplate

  // ---------------------------------------------------------------------------------------------
  // The parses a frame can be in while it is in progress

  ghost predicate LiveScript(p: ScriptParse) {
    SProgress(p) && (p.SParameter? ==> LiveValue(p.value))
  }

  ghost predicate LiveValue(p: ValueParse) {
    match p
    case VStart => true
    case VScript(s) => LiveScript(s)
    case VArray(a) => LiveArray(a)
    case VObject(o) => LiveObject(o)
    case _ => false
  }

  ghost predicate LiveArray(p: ArrayParse) {
    match p
    case AFirst => true
    case AScript(_, s) => LiveScript(s)
    case AScripted(_, _, body) => LiveValue(body)
    case AElement(_, element) => LiveValue(element) && !element.VStart? && !element.VScript?
    case ASeparator(items) => items != []
    case ANext(items) => items != []
    case _ => false
  }

  // A plain element has read a token, and that token was not the start of a script.
  ghost predicate LiveElement(p: ValueParse) {
    LiveValue(p) && !p.VStart? && !p.VScript?
  }

  ghost predicate LiveObject(p: ObjectParse) {
    match p
    case OScript(_, _, s) => LiveScript(s)
    case OValue(_, _, _, value) => LiveValue(value)
    case _ => OProgress(p)
  }

  ghost predicate LiveText(p: TextParse) {
    match p
    case TScript(_, s) => LiveScript(s)
    case TArray(_, a) => LiveArray(a)
    case TObject(_, o) => LiveObject(o)
    case _ => TProgress(p)
  }

  // What a token leads to: a live parse or a finished one that has read one more token, or failure.
  ghost predicate GoodScript(p: ScriptParse, read: seq<Token>) {
    p == SFailed || ((p.SDone? || LiveScript(p)) && UnparseScript(p) == read)
  }

  ghost predicate GoodValue(p: ValueParse, read: seq<Token>) {
    p == VFailed || ((p.VDone? || LiveValue(p)) && UnparseValue(p) == read)
  }

  ghost predicate GoodArray(p: ArrayParse, read: seq<Token>) {
    p == AFailed || ((p.ADone? || LiveArray(p)) && UnparseArray(p) == read)
  }

  ghost predicate GoodObject(p: ObjectParse, read: seq<Token>) {
    p == OFailed || ((FinishedObject(p) || LiveObject(p)) && UnparseObject(p) == read)
  }

  ghost predicate FinishedObject(p: ObjectParse) {
    p.ODone? && (p.plain.EmptyObjectT? || p.plain.ObjectT?)
  }

  ghost predicate GoodText(p: TextParse, read: seq<Token>) {
    p == TFailed || ((p.TDone? || LiveText(p)) && UnparseText(p) == read)
  }

  lemma {:induction false} ScriptReads(p: ScriptParse, t: Token)
    requires LiveScript(p)
    ensures GoodScript(StepScript(p, t), UnparseScript(p) + [t])
  {
    if p.SParameter? {
      ValueReads(p.value, t);
      Associative(TargetTokens(p.target), UnparseValue(p.value), [t]);
    } else if p.SAfterBegin? {
      BeginReads(t);
    }
  }

  lemma Associative(a: seq<Token>, b: seq<Token>, c: seq<Token>)
    ensures a + (b + c) == a + b + c
  {
  }

  lemma BeginReads(t: Token)
    ensures GoodValue(BeginValue(t), [t]) && BeginValue(t) != VStart
    ensures !t.BeginScript? ==> !BeginValue(t).VScript? && (BeginValue(t).VDone? ==> BeginValue(t).template.Plain?)
  {
    if t.BeginScript? {
      assert UnparseScript(SElement) == [];
    } else if t.BeginArray? {
      assert UnparseArray(AFirst) == [];
    } else if t.BeginObject? {
      assert UnparseObject(OName([], [])) == [] + [];
    } else if BeginValue(t).VDone? {
      assert UnparseValue(BeginValue(t)) == PlainTokens(BeginValue(t).template.plain);
    }
  }

  lemma {:induction false} ValueReads(p: ValueParse, t: Token)
    requires LiveValue(p)
    ensures GoodValue(StepValue(p, t), UnparseValue(p) + [t]) && StepValue(p, t) != VStart
    ensures !p.VScript? && !p.VStart? ==> !StepValue(p, t).VScript? && (StepValue(p, t).VDone? ==> StepValue(p, t).template.Plain?)
  {
    hide StepScript;
    hide StepArray;
    hide StepObject;
    hide ItemsTokens;
    hide ScriptTokens;
    match p
    case VStart => BeginReads(t); assert [] + [t] == [t];
    case VScript(s) =>
      ScriptReads(s, t);
      Associative([BeginScript], UnparseScript(s), [t]);
    case VArray(a) =>
      ArrayReads(a, t);
      Associative([BeginArray], UnparseArray(a), [t]);
      if StepArray(a, t).ADone? {
        var items := StepArray(a, t).items;
        Associative([BeginArray], ItemsTokens(items), [EndArray]);
        assert TemplateTokens(Plain(ArrayT(items))) == PlainTokens(ArrayT(items));
      }
    case VObject(o) =>
      ObjectReads(o, t);
      Associative([BeginObject], UnparseObject(o), [t]);
      if StepObject(o, t).ODone? {
        ObjectTokens(StepObject(o, t).plain);
      }
  }

  lemma ObjectTokens(p: Plain)
    requires p.EmptyObjectT? || p.ObjectT?
    ensures PlainTokens(p) == [BeginObject] + PlainTokens(p)[1..]
  {
  }

  lemma {:induction false} ArrayReads(p: ArrayParse, t: Token)
    requires LiveArray(p)
    ensures GoodArray(StepArray(p, t), UnparseArray(p) + [t])
  {
    match p
    case AFirst =>
      if !t.BeginScript? && !t.EndArray? {
        BeginReads(t);
        ElementReads([], BeginValue(t), [t]);
      }
    case AScript(before, s) =>
      ScriptReads(s, t);
      GovernorReads(before, s, t);
    case AScripted(before, governor, body) =>
      ValueReads(body, t);
      BodyReads(before, governor, body, t);
    case AElement(before, element) =>
      ValueReads(element, t);
      ElementReads(before, StepValue(element, t), UnparseValue(element) + [t]);
      Associative(SeparatedItems(before), UnparseValue(element), [t]);
    case ASeparator(items) =>
      assert SeparatedItems(items) == ItemsTokens(items) + [ValueSeparator];
    case ANext(items) =>
      if t.BeginScript? {
        assert UnparseArray(AScript(items, SElement)) == SeparatedItems(items) + [BeginScript] + UnparseScript(SElement);
        assert SeparatedItems(items) + [BeginScript] + [] == SeparatedItems(items) + [BeginScript];
      } else {
        BeginReads(t);
        ElementReads(items, BeginValue(t), [t]);
      }
  }

  lemma GovernorReads(before: seq<Item>, s: ScriptParse, t: Token)
    requires LiveScript(s) && GoodScript(StepScript(s, t), UnparseScript(s) + [t])
    ensures GoodArray(AfterGovernor(before, StepScript(s, t)), UnparseArray(AScript(before, s)) + [t])
  {
    Associative(SeparatedItems(before) + [BeginScript], UnparseScript(s), [t]);
    if StepScript(s, t).SDone? {
      var script := StepScript(s, t).script;
      var opening := SeparatedItems(before) + [BeginScript] + ScriptTokens(script);
      assert UnparseArray(AScripted(before, script, VStart)) == opening + UnparseValue(VStart);
      assert opening + [] == opening;
    }
  }

  lemma BodyReads(before: seq<Item>, governor: Script, body: ValueParse, t: Token)
    requires LiveValue(body) && GoodValue(StepValue(body, t), UnparseValue(body) + [t])
    ensures GoodArray(AfterBody(before, governor, StepValue(body, t)), UnparseArray(AScripted(before, governor, body)) + [t])
  {
    var opening, read := SeparatedItems(before) + [BeginScript] + ScriptTokens(governor), StepValue(body, t);
    Associative(opening, UnparseValue(body), [t]);
    if read.VDone? {
      ItemsSnoc(before, PerMatch(governor, read.template));
      GovernedTokens(SeparatedItems(before), governor, read.template);
    }
  }

  lemma GovernedTokens(front: seq<Token>, governor: Script, body: Template)
    ensures front + ItemTokens(PerMatch(governor, body)) == front + [BeginScript] + ScriptTokens(governor) + TemplateTokens(body)
  {
  }

  lemma ItemsSnoc(before: seq<Item>, i: Item)
    ensures ItemsTokens(before + [i]) == SeparatedItems(before) + ItemTokens(i)
  {
    assert (before + [i])[..|before|] == before;
  }

  lemma ElementReads(before: seq<Item>, p: ValueParse, read: seq<Token>)
    requires GoodValue(p, read) && p != VStart && !p.VScript? && (p.VDone? ==> p.template.Plain?)
    ensures GoodArray(AfterElement(before, p), SeparatedItems(before) + read)
  {
    if p.VDone? {
      ItemsSnoc(before, Once(p.template.plain));
    }
  }

  lemma {:induction false} ObjectReads(p: ObjectParse, t: Token)
    requires LiveObject(p)
    ensures GoodObject(StepObject(p, t), UnparseObject(p) + [t])
  {
    match p
    case OName(members, aims) => NameReads(members, aims, t);
    case OScript(members, aims, s) =>
      ScriptReads(s, t);
      ScriptInObjectReads(members, aims, s, t);
    case OSeparator(members, aims, name) => SeparatorReads(members, aims, name, t);
    case OValue(members, aims, name, value) =>
      ValueReads(value, t);
      ValueInObjectReads(members, aims, name, value, t);
    case OMemberSeparator(members, last) => MemberSeparatorReads(members, last, t);
  }

  lemma ScriptInObjectReads(members: seq<Member>, aims: seq<Script>, s: ScriptParse, t: Token)
    requires LiveScript(s) && GoodScript(StepScript(s, t), UnparseScript(s) + [t])
    ensures GoodObject(StepObject(OScript(members, aims, s), t), UnparseObject(OScript(members, aims, s)) + [t])
  {
    hide StepScript;
    hide ScriptTokens;
    hide MembersTokens;
    hide AimTokens;
    Associative(MembersTokens(members) + AimTokens(aims) + [BeginScript], UnparseScript(s), [t]);
    if StepScript(s, t).SDone? {
      AimRead(members, aims, StepScript(s, t).script);
    }
  }

  lemma AimRead(members: seq<Member>, aims: seq<Script>, s: Script)
    ensures MembersTokens(members) + AimTokens(aims + [s])
         == MembersTokens(members) + AimTokens(aims) + [BeginScript] + ScriptTokens(s)
  {
    hide *;
    AimsSnoc(aims, s);
    Associative(MembersTokens(members), AimTokens(aims) + [BeginScript], ScriptTokens(s));
    Associative(MembersTokens(members), AimTokens(aims), [BeginScript]);
  }

  lemma SeparatorReads(members: seq<Member>, aims: seq<Script>, name: string, t: Token)
    ensures GoodObject(StepObject(OSeparator(members, aims, name), t), UnparseObject(OSeparator(members, aims, name)) + [t])
  {
    if t.NameSeparator? {
      var front := MembersTokens(members) + AimTokens(aims);
      assert UnparseObject(OValue(members, aims, name, VStart))
          == front + [StringToken(name), NameSeparator] + UnparseValue(VStart);
      assert front + [StringToken(name), NameSeparator] + [] == front + [StringToken(name)] + [NameSeparator];
    }
  }

  lemma NameReads(members: seq<Member>, aims: seq<Script>, t: Token)
    ensures GoodObject(StepObject(OName(members, aims), t), UnparseObject(OName(members, aims)) + [t])
  {
    var front := MembersTokens(members) + AimTokens(aims);
    if t.BeginScript? {
      assert UnparseObject(OScript(members, aims, SElement)) == front + [BeginScript] + UnparseScript(SElement);
      assert front + [BeginScript] + [] == front + [t];
    } else if t.EndObject? && members == [] {
      assert PlainTokens(EmptyObjectT(aims))[1..] == front + [EndObject];
    }
  }

  lemma ValueInObjectReads(members: seq<Member>, aims: seq<Script>, name: string, value: ValueParse, t: Token)
    requires LiveValue(value) && GoodValue(StepValue(value, t), UnparseValue(value) + [t])
    ensures var p := OValue(members, aims, name, value);
            GoodObject(AfterMember(members, aims, name, StepValue(value, t)), UnparseObject(p) + [t])
  {
    var opening, read := MembersTokens(members) + AimTokens(aims) + [StringToken(name), NameSeparator], StepValue(value, t);
    Associative(opening, UnparseValue(value), [t]);
    if read.VDone? {
      MemberRead(members, Member(aims, name, read.template));
    }
  }

  lemma MemberRead(members: seq<Member>, m: Member)
    ensures MembersTokens(members) + MemberTokens(m)
         == MembersTokens(members) + AimTokens(m.aims) + [StringToken(m.name), NameSeparator] + TemplateTokens(m.body)
  {
  }

  lemma MemberSeparatorReads(members: seq<Member>, last: Member, t: Token)
    ensures var p := OMemberSeparator(members, last);
            GoodObject(StepObject(p, t), UnparseObject(p) + [t])
  {
    var front := MembersTokens(members) + MemberTokens(last);
    if t.EndObject? {
      assert PlainTokens(ObjectT(members, last))[1..] == front + [EndObject];
    } else if t.ValueSeparator? {
      MembersSnoc(members, last);
      assert front + [ValueSeparator] + AimTokens([]) == front + [t];
    }
  }

  lemma MembersSnoc(members: seq<Member>, last: Member)
    ensures MembersTokens(members + [last]) == MembersTokens(members) + MemberTokens(last) + [ValueSeparator]
  {
    assert (members + [last])[..|members|] == members;
  }

  lemma AimsSnoc(aims: seq<Script>, s: Script)
    ensures AimTokens(aims + [s]) == AimTokens(aims) + [BeginScript] + ScriptTokens(s)
  {
    assert (aims + [s])[..|aims|] == aims;
  }

  lemma {:induction false} TextReads(p: TextParse, t: Token)
    requires LiveText(p)
    ensures GoodText(StepText(p, t), UnparseText(p) + [t])
  {
    hide StepScript;
    hide StepArray;
    hide StepObject;
    hide AimTokens;
    match p
    case TRoot(aims) => RootReads(aims, t);
    case TScript(aims, s) =>
      ScriptReads(s, t);
      RootScriptReads(aims, s, t);
    case TArray(aims, a) =>
      ArrayReads(a, t);
      Associative(AimTokens(aims) + [BeginArray], UnparseArray(a), [t]);
    case TObject(aims, o) =>
      ObjectReads(o, t);
      RootObjectReads(aims, o, t);
  }

  lemma RootReads(aims: seq<Script>, t: Token)
    ensures GoodText(StepText(TRoot(aims), t), AimTokens(aims) + [t])
  {
    var read := AimTokens(aims) + [t];
    assert read + [] == read;
    if t.BeginScript? {
      assert UnparseText(TScript(aims, SElement)) == read + UnparseScript(SElement);
    } else if t.BeginArray? {
      assert UnparseText(TArray(aims, AFirst)) == read + UnparseArray(AFirst);
    } else if t.BeginObject? {
      assert UnparseText(TObject(aims, OName([], []))) == read + ([] + []);
    }
  }

  lemma RootScriptReads(aims: seq<Script>, s: ScriptParse, t: Token)
    requires LiveScript(s) && GoodScript(StepScript(s, t), UnparseScript(s) + [t])
    ensures GoodText(AfterRootScript(aims, StepScript(s, t)), UnparseText(TScript(aims, s)) + [t])
  {
    Associative(AimTokens(aims) + [BeginScript], UnparseScript(s), [t]);
    if StepScript(s, t).SDone? {
      AimsSnoc(aims, StepScript(s, t).script);
    }
  }

  lemma RootObjectReads(aims: seq<Script>, o: ObjectParse, t: Token)
    requires LiveObject(o) && GoodObject(StepObject(o, t), UnparseObject(o) + [t])
    ensures GoodText(AfterRootObject(aims, StepObject(o, t)), UnparseText(TObject(aims, o)) + [t])
  {
    Associative(AimTokens(aims) + [BeginObject], UnparseObject(o), [t]);
    if StepObject(o, t).ODone? {
      var plain := StepObject(o, t).plain;
      ObjectTokens(plain);
      Associative(AimTokens(aims), [BeginObject], PlainTokens(plain)[1..]);
    }
  }

  // ---------------------------------------------------------------------------------------------
  // A frame follows its sub-frame, and it has read more

  lemma BeginStep(t: Token)
    ensures StepValue(VStart, t) == BeginValue(t)
    ensures match t
            case BeginScript => BeginValue(t) == VScript(SElement) && LiveScript(SElement)
            case BeginArray => BeginValue(t) == VArray(AFirst) && LiveArray(AFirst)
            case BeginObject => BeginValue(t) == VObject(OName([], [])) && LiveObject(OName([], []))
            case NumberToken(n) => BeginValue(t) == VDone(Plain(NumberT(n)))
            case StringToken(s) => BeginValue(t) == VDone(Plain(StringT(s)))
            case BoolToken(b) => BeginValue(t) == VDone(Plain(BoolT(b)))
            case NullToken => BeginValue(t) == VDone(Plain(NullT))
            case _ => BeginValue(t) == VFailed
  {
  }

  lemma ScriptInValue(s: ScriptParse, t: Token)
    requires LiveScript(s)
    ensures var r, q := StepScript(s, t), StepValue(VScript(s), t);
            && (LiveScript(r) || r == SFailed || r.SDone?)
            && (LiveScript(r) ==> q == VScript(r)) && (r == SFailed ==> q == VFailed) && (r.SDone? ==> q == VDone(Selected(r.script)))
    ensures |UnparseScript(s)| < |UnparseValue(VScript(s))|
  {
    hide StepScript;
    ScriptReads(s, t);
  }

  lemma ArrayInValue(a: ArrayParse, t: Token)
    requires LiveArray(a)
    ensures var r, q := StepArray(a, t), StepValue(VArray(a), t);
            && (LiveArray(r) || r == AFailed || r.ADone?)
            && (LiveArray(r) ==> q == VArray(r)) && (r == AFailed ==> q == VFailed) && (r.ADone? ==> q == VDone(Plain(ArrayT(r.items))))
    ensures |UnparseArray(a)| < |UnparseValue(VArray(a))|
  {
    hide StepArray;
    ArrayReads(a, t);
  }

  lemma ObjectInValue(o: ObjectParse, t: Token)
    requires LiveObject(o)
    ensures var r, q := StepObject(o, t), StepValue(VObject(o), t);
            && (LiveObject(r) || r == OFailed || FinishedObject(r))
            && (LiveObject(r) ==> q == VObject(r)) && (r == OFailed ==> q == VFailed) && (FinishedObject(r) ==> q == VDone(Plain(r.plain)))
    ensures |UnparseObject(o)| < |UnparseValue(VObject(o))|
    ensures FinishedObject(StepObject(o, t)) ==> StepObject(o, t).ODone?
  {
    hide StepObject;
    ObjectReads(o, t);
  }

  lemma RootStep(aims: seq<Script>, t: Token)
    ensures StepText(TRoot(aims), t)
         == if t.BeginScript? then TScript(aims, SElement)
            else if t.BeginArray? then TArray(aims, AFirst)
            else if t.BeginObject? then TObject(aims, OName([], []))
            else TFailed
    ensures LiveScript(SElement) && LiveArray(AFirst) && LiveObject(OName([], []))
  {
  }

  lemma ScriptInText(aims: seq<Script>, s: ScriptParse, t: Token)
    requires LiveScript(s)
    ensures var r, q := StepScript(s, t), StepText(TScript(aims, s), t);
            && (LiveScript(r) || r == SFailed || r.SDone?)
            && (LiveScript(r) ==> q == TScript(aims, r)) && (r == SFailed ==> q == TFailed) && (r.SDone? ==> q == TRoot(aims + [r.script]))
  {
    hide StepScript;
    ScriptReads(s, t);
  }

  lemma ArrayInText(aims: seq<Script>, a: ArrayParse, t: Token)
    requires LiveArray(a)
    ensures var r, q := StepArray(a, t), StepText(TArray(aims, a), t);
            && (LiveArray(r) || r == AFailed || r.ADone?)
            && (LiveArray(r) ==> q == TArray(aims, r)) && (r == AFailed ==> q == TFailed)
            && (r.ADone? ==> q == TDone(Document(aims, ArrayT(r.items))))
  {
    hide StepArray;
    ArrayReads(a, t);
  }

  lemma ObjectInText(aims: seq<Script>, o: ObjectParse, t: Token)
    requires LiveObject(o)
    ensures var r, q := StepObject(o, t), StepText(TObject(aims, o), t);
            && (LiveObject(r) || r == OFailed || r.ODone?)
            && (LiveObject(r) ==> q == TObject(aims, r)) && (r == OFailed ==> q == TFailed)
            && (r.ODone? ==> q == TDone(Document(aims, r.plain)))
  {
    hide StepObject;
    ObjectReads(o, t);
  }

  lemma ArrayStep(p: ArrayParse, t: Token)
    requires LiveArray(p)
    ensures p.AFirst? || p.ANext? ==>
              var before := if p.AFirst? then [] else p.items;
              StepArray(p, t) == if t.BeginScript? then AScript(before, SElement)
                                 else if p.AFirst? && t.EndArray? then ADone([])
                                 else AfterElement(before, StepValue(VStart, t))
    ensures p.AElement? ==> StepArray(p, t) == AfterElement(p.before, StepValue(p.element, t))
    ensures p.AElement? ==> |UnparseValue(p.element)| <= |UnparseArray(p)|
    ensures p.ASeparator? ==>
              && p.items != []
              && StepArray(p, t) == if t.EndArray? then ADone(p.items) else if t.ValueSeparator? then ANext(p.items) else AFailed
    ensures UnparseValue(VStart) == []
  {
    hide BeginValue;
    hide AfterElement;
  }

  lemma GovernorInArray(before: seq<Item>, s: ScriptParse, t: Token)
    requires LiveScript(s)
    ensures var r, q := StepScript(s, t), StepArray(AScript(before, s), t);
            && (LiveScript(r) || r == SFailed || r.SDone?)
            && (LiveScript(r) ==> q == AScript(before, r)) && (r == SFailed ==> q == AFailed)
            && (r.SDone? ==> q == AScripted(before, r.script, VStart))
    ensures |UnparseScript(s)| < |UnparseArray(AScript(before, s))|
  {
    hide StepScript;
    ScriptReads(s, t);
  }

  lemma BodyInArray(before: seq<Item>, governor: Script, body: ValueParse, t: Token)
    requires LiveValue(body)
    ensures var r, q := StepValue(body, t), StepArray(AScripted(before, governor, body), t);
            && (LiveValue(r) || r == VFailed || r.VDone?)
            && (LiveValue(r) ==> q == AScripted(before, governor, r) && UnparseValue(r) == UnparseValue(body) + [t])
            && (r == VFailed ==> q == AFailed)
            && (r.VDone? ==> q == ASeparator(before + [PerMatch(governor, r.template)]) && TemplateTokens(r.template) == UnparseValue(body) + [t])
    ensures |UnparseValue(body)| + 1 < |UnparseArray(AScripted(before, governor, body))|
  {
    hide StepValue;
    hide ScriptTokens;
    ValueReads(body, t);
    LastToken(governor);
  }

  lemma ElementInArray(before: seq<Item>, v: ValueParse, t: Token)
    requires LiveElement(v) || (v.VStart? && !t.BeginScript?)
    ensures LiveValue(v)
    ensures var r := StepValue(v, t); var q := AfterElement(before, r);
            && (LiveValue(r) || r == VFailed || r.VDone?)
            && (LiveValue(r) ==> q == AElement(before, r) && LiveElement(r)) && (r == VFailed ==> q == AFailed)
            && (r.VDone? ==> r.template.Plain? && q == ASeparator(before + [Once(r.template.plain)]))
  {
    ValueReads(v, t);
    BeginReads(t);
  }

  lemma ScriptBegins()
    ensures LiveScript(SElement)
  {
  }

  lemma NameInObject(ms: seq<Member>, aims: seq<Script>, t: Token)
    requires ms == [] ==> !t.EndObject?
    ensures StepObject(OName(ms, aims), t)
         == if t.BeginScript? then OScript(ms, aims, SElement) else if t.StringToken? then OSeparator(ms, aims, t.text) else OFailed
  {
  }

  lemma ScriptInObject(ms: seq<Member>, aims: seq<Script>, s: ScriptParse, t: Token)
    requires LiveScript(s)
    ensures var r, q := StepScript(s, t), StepObject(OScript(ms, aims, s), t);
            && (LiveScript(r) || r == SFailed || r.SDone?)
            && (LiveScript(r) ==> q == OScript(ms, aims, r)) && (r == SFailed ==> q == OFailed)
            && (r.SDone? ==> q == OName(ms, aims + [r.script]))
    ensures |UnparseScript(s)| < |UnparseObject(OScript(ms, aims, s))|
  {
    hide StepScript;
    ScriptReads(s, t);
  }

  lemma SeparatorInObject(ms: seq<Member>, aims: seq<Script>, name: string, t: Token)
    ensures StepObject(OSeparator(ms, aims, name), t) == if t.NameSeparator? then OValue(ms, aims, name, VStart) else OFailed
    ensures LiveValue(VStart)
  {
  }

  lemma ValueInObject(ms: seq<Member>, aims: seq<Script>, name: string, v: ValueParse, t: Token)
    requires LiveValue(v)
    ensures var r, q := StepValue(v, t), StepObject(OValue(ms, aims, name, v), t);
            && (LiveValue(r) || r == VFailed || r.VDone?)
            && (LiveValue(r) ==> q == OValue(ms, aims, name, r)) && (r == VFailed ==> q == OFailed)
            && (r.VDone? ==> q == OMemberSeparator(ms, Member(aims, name, r.template)))
    ensures |UnparseValue(v)| < |UnparseObject(OValue(ms, aims, name, v))|
  {
    hide StepValue;
    ValueReads(v, t);
  }

  lemma MemberSeparatorInObject(ms: seq<Member>, last: Member, t: Token)
    ensures StepObject(OMemberSeparator(ms, last), t)
         == if t.EndObject? then ODone(ObjectT(ms, last)) else if t.ValueSeparator? then OName(ms + [last], []) else OFailed
    ensures FinishedObject(ODone(ObjectT(ms, last)))
  {
  }

  lemma ParameterInScript(p: ScriptParse, v: ValueParse, t: Token)
    requires LiveScript(p)
    requires (p.SAfterBegin? && !t.EndParameter? && v == VStart) || (p.SParameter? && v == p.value)
    ensures LiveValue(v)
    ensures var r, q := StepValue(v, t), StepScript(p, t);
            && (LiveValue(r) || r == VFailed || r.VDone?)
            && (LiveValue(r) ==> q == SParameter(p.target, r)) && (r == VFailed ==> q == SFailed)
            && (r.VDone? ==> q == SEndParameter(p.target, r.template))
    ensures |UnparseValue(v)| < |UnparseScript(p)|
  {
    hide BeginValue;
    ValueReads(v, t);
  }

  // ---------------------------------------------------------------------------------------------
  // Runs: `ts` takes a machine from `p` to `q`, through live states only

  ghost predicate Runs<P(!new)>(step: (P, Token) -> P, live: P -> bool, p: P, ts: seq<Token>, q: P)
    decreases ts
  {
    if ts == [] then p == q else live(p) && Runs(step, live, step(p, ts[0]), ts[1..], q)
  }

  lemma {:induction false} Then<P(!new)>(step: (P, Token) -> P, live: P -> bool, p: P, ts: seq<Token>, q: P, us: seq<Token>, r: P)
    requires Runs(step, live, p, ts, q) && Runs(step, live, q, us, r)
    ensures Runs(step, live, p, ts + us, r)
    decreases ts
  {
    if ts == [] {
      assert ts + us == us;
    } else {
      Then(step, live, step(p, ts[0]), ts[1..], q, us, r);
      assert (ts + us)[1..] == ts[1..] + us;
    }
  }

  lemma Push<P(!new)>(step: (P, Token) -> P, live: P -> bool, p: P, ts: seq<Token>, q: P, t: Token)
    requires Runs(step, live, p, ts, q) && live(q)
    ensures Runs(step, live, p, ts + [t], step(q, t))
  {
    One(step, live, q, t);
    Then(step, live, p, ts, q, [t], step(q, t));
  }

  lemma One<P(!new)>(step: (P, Token) -> P, live: P -> bool, p: P, t: Token)
    requires live(p)
    ensures Runs(step, live, p, [t], step(p, t))
  {
    assert Runs(step, live, step(p, t), [t][1..], step(p, t));
  }

  ghost predicate Commutes<P, Q>(
    inner: (P, Token) -> P, liveInner: P -> bool, outer: (Q, Token) -> Q, liveOuter: Q -> bool, wrap: P -> Q, x: P, t: Token)
  {
    liveInner(x) ==> liveOuter(wrap(x)) && outer(wrap(x), t) == wrap(inner(x, t))
  }

  /** A frame that hands its tokens to a sub-frame runs as the sub-frame does. */
  lemma {:induction false} Nested<P(!new), Q(!new)>(
    inner: (P, Token) -> P, liveInner: P -> bool, outer: (Q, Token) -> Q, liveOuter: Q -> bool, wrap: P -> Q,
    p: P, ts: seq<Token>, q: P)
    requires Runs(inner, liveInner, p, ts, q)
    requires forall x, t :: Commutes(inner, liveInner, outer, liveOuter, wrap, x, t)
    ensures Runs(outer, liveOuter, wrap(p), ts, wrap(q))
    decreases ts
  {
    if ts != [] {
      assert Commutes(inner, liveInner, outer, liveOuter, wrap, p, ts[0]);
      Nested(inner, liveInner, outer, liveOuter, wrap, inner(p, ts[0]), ts[1..], q);
    }
  }

  lemma {:induction false} RunsFeed<P(!new)>(step: (P, Token) -> P, live: P -> bool, p: P, ts: seq<Token>, q: P)
    requires Runs(step, live, p, ts, q)
    ensures Feed(step, p, ts) == q
    ensures forall n :: 0 <= n < |ts| ==> live(Feed(step, p, ts[..n]))
    decreases ts
  {
    if ts != [] {
      RunsFeed(step, live, step(p, ts[0]), ts[1..], q);
      forall n | 0 <= n < |ts| ensures live(Feed(step, p, ts[..n])) {
        if n > 0 {
          assert ts[..n][1..] == ts[1..][..n - 1];
        }
      }
    }
  }

  // ---------------------------------------------------------------------------------------------
  // The tokens of a template run its frame to the end

  lemma TargetRuns(target: Target)
    ensures Runs(StepScript, LiveScript, SElement, TargetTokens(target), SAfterBegin(target))
  {
    hide Runs;
    match target
    case Method(m) =>
      One(StepScript, LiveScript, SElement, Name(m));
      Push(StepScript, LiveScript, SElement, [Name(m)], SAfterElement(m), BeginParameter);
      assert TargetTokens(target) == [Name(m)] + [BeginParameter];
    case OfElement(e, m) =>
      AttributeRuns(e, m);
      Push(StepScript, LiveScript, SElement, ElementTokens(e) + [Name(m)], SAfterAttribute(e, m), BeginParameter);
      assert TargetTokens(target) == ElementTokens(e) + [Name(m)] + [BeginParameter];
    case OfAttribute(e, a, m) =>
      AttributeRuns(e, a);
      var ts := ElementTokens(e) + [Name(a)];
      Push(StepScript, LiveScript, SElement, ts, SAfterAttribute(e, a), TokenSeparator);
      Push(StepScript, LiveScript, SElement, ts + [TokenSeparator], SExpectMethod(e, a), Name(m));
      Push(StepScript, LiveScript, SElement, ts + [TokenSeparator] + [Name(m)], SExpectBegin(e, a, m), BeginParameter);
      assert TargetTokens(target) == ts + [TokenSeparator] + [Name(m)] + [BeginParameter];
  }

  lemma AttributeRuns(e: Option<string>, a: string)
    ensures Runs(StepScript, LiveScript, SElement, ElementTokens(e) + [Name(a)], SAfterAttribute(e, a))
  {
    hide Runs;
    if e.Some? {
      One(StepScript, LiveScript, SElement, Name(e.value));
      Push(StepScript, LiveScript, SElement, [Name(e.value)], SAfterElement(e.value), TokenSeparator);
      assert ElementTokens(e) == [Name(e.value)] + [TokenSeparator];
    } else {
      One(StepScript, LiveScript, SElement, TokenSeparator);
      assert ElementTokens(e) == [TokenSeparator];
    }
    Push(StepScript, LiveScript, SElement, ElementTokens(e), SExpectAttribute(e), Name(a));
  }

  lemma {:induction false} ScriptRuns(s: Script)
    ensures Runs(StepScript, LiveScript, SElement, ScriptTokens(s), SDone(s))
  {
    hide Runs;
    match s
    case Nothing =>
      One(StepScript, LiveScript, SElement, EndScript);
      assert ScriptTokens(s) == [EndScript];
    case Element(name) =>
      One(StepScript, LiveScript, SElement, Name(name));
      Push(StepScript, LiveScript, SElement, [Name(name)], SAfterElement(name), EndScript);
      assert ScriptTokens(s) == [Name(name)] + [EndScript];
    case Attribute(e, a) =>
      AttributeRuns(e, a);
      Push(StepScript, LiveScript, SElement, ElementTokens(e) + [Name(a)], SAfterAttribute(e, a), EndScript);
      assert ScriptTokens(s) == ElementTokens(e) + [Name(a)] + [EndScript];
    case Call(target, None) =>
      TargetRuns(target);
      Push(StepScript, LiveScript, SElement, TargetTokens(target), SAfterBegin(target), EndParameter);
      CallRuns(target, None, TargetTokens(target));
    case Call(target, Some(p)) =>
      TargetRuns(target);
      TemplateRuns(p);
      ParameterRuns(target, p);
      Then(StepScript, LiveScript, SElement, TargetTokens(target), SAfterBegin(target), TemplateTokens(p), SEndParameter(target, p));
      Push(StepScript, LiveScript, SElement, TargetTokens(target) + TemplateTokens(p), SEndParameter(target, p), EndParameter);
      CallRuns(target, Some(p), TargetTokens(target) + TemplateTokens(p));
  }

  lemma CallRuns(target: Target, parameter: Option<Template>, ts: seq<Token>)
    requires Runs(StepScript, LiveScript, SElement, ts + [EndParameter], SEndScript(target, parameter))
    requires ts == TargetTokens(target) + (if parameter.Some? then TemplateTokens(parameter.value) else [])
    ensures Runs(StepScript, LiveScript, SElement, ScriptTokens(Call(target, parameter)), SDone(Call(target, parameter)))
  {
    hide Runs;
    hide TargetTokens;
    hide TemplateTokens;
    Push(StepScript, LiveScript, SElement, ts + [EndParameter], SEndScript(target, parameter), EndScript);
    assert ScriptTokens(Call(target, parameter)) == ts + [EndParameter] + [EndScript];
  }

  /** The first parameter token reaches the parameter frame through a change of state. */
  lemma ParameterRuns(target: Target, p: Template)
    requires Runs(StepValue, LiveValue, VStart, TemplateTokens(p), VDone(p))
    ensures Runs(StepScript, LiveScript, SAfterBegin(target), TemplateTokens(p), SEndParameter(target, p))
  {
    var ts := TemplateTokens(p);
    FirstToken(p);
    var wrap := v => AfterParameter(target, v);
    var begun := StepValue(VStart, ts[0]);
    forall x, t ensures Commutes(StepValue, LiveValue, StepScript, LiveScript, wrap, x, t) {}
    Nested(StepValue, LiveValue, StepScript, LiveScript, wrap, begun, ts[1..], VDone(p));
    assert StepScript(SAfterBegin(target), ts[0]) == wrap(begun);
  }

  lemma LastToken(s: Script)
    ensures ScriptTokens(s) != [] && ScriptTokens(s)[|ScriptTokens(s)| - 1] == EndScript
  {
  }

  lemma FirstToken(t: Template)
    ensures TemplateTokens(t) != [] && !TemplateTokens(t)[0].EndParameter?
    ensures t.Plain? ==> !TemplateTokens(t)[0].BeginScript? && !TemplateTokens(t)[0].EndArray?
  {
    if t.Plain? {
      assert TemplateTokens(t) == PlainTokens(t.plain);
      if t.plain.ObjectT? || t.plain.EmptyObjectT? {
        ObjectTokens(t.plain);
      }
    }
  }

  lemma {:induction false} TemplateRuns(t: Template)
    ensures Runs(StepValue, LiveValue, VStart, TemplateTokens(t), VDone(t))
  {
    match t
    case Selected(s) =>
      ScriptRuns(s);
      One(StepValue, LiveValue, VStart, BeginScript);
      forall x, t ensures Commutes(StepScript, LiveScript, StepValue, LiveValue, AfterValueScript, x, t) {}
      Nested(StepScript, LiveScript, StepValue, LiveValue, AfterValueScript, SElement, ScriptTokens(s), SDone(s));
      Then(StepValue, LiveValue, VStart, [BeginScript], VScript(SElement), ScriptTokens(s), VDone(t));
    case Plain(p) => PlainRuns(p);
  }

  lemma {:induction false} PlainRuns(p: Plain)
    ensures Runs(StepValue, LiveValue, VStart, PlainTokens(p), VDone(Plain(p)))
  {
    hide Runs;
    match p
    case ArrayT(items) =>
      BaseRuns(items);
      var last := if items == [] then AFirst else ASeparator(items);
      Push(StepArray, LiveArray, AFirst, ItemsTokens(items), last, EndArray);
      ArrayRuns(items);
    case EmptyObjectT(aims) =>
      AimsRuns([], aims);
      Push(StepObject, LiveObject, OName([], []), AimTokens(aims), OName([], aims), EndObject);
      ObjectRuns(p, AimTokens(aims) + [EndObject]);
    case ObjectT(members, last) =>
      MembersRuns(members);
      MemberRuns(members, last);
      var ts := MembersTokens(members) + MemberTokens(last);
      Then(StepObject, LiveObject, OName([], []), MembersTokens(members), OName(members, []), MemberTokens(last), OMemberSeparator(members, last));
      Push(StepObject, LiveObject, OName([], []), ts, OMemberSeparator(members, last), EndObject);
      ObjectRuns(p, ts + [EndObject]);
    case _ =>
      One(StepValue, LiveValue, VStart, PlainTokens(p)[0]);
      assert [PlainTokens(p)[0]] == PlainTokens(p);
  }

  lemma ArrayRuns(items: seq<Item>)
    requires Runs(StepArray, LiveArray, AFirst, ItemsTokens(items) + [EndArray], ADone(items))
    ensures Runs(StepValue, LiveValue, VStart, PlainTokens(ArrayT(items)), VDone(Plain(ArrayT(items))))
  {
    var ts := ItemsTokens(items) + [EndArray];
    One(StepValue, LiveValue, VStart, BeginArray);
    forall x, t ensures Commutes(StepArray, LiveArray, StepValue, LiveValue, AfterValueArray, x, t) {}
    Nested(StepArray, LiveArray, StepValue, LiveValue, AfterValueArray, AFirst, ts, ADone(items));
    Then(StepValue, LiveValue, VStart, [BeginArray], VArray(AFirst), ts, VDone(Plain(ArrayT(items))));
    assert PlainTokens(ArrayT(items)) == [BeginArray] + ts;
  }

  lemma ObjectRuns(p: Plain, ts: seq<Token>)
    requires p.EmptyObjectT? || p.ObjectT?
    requires PlainTokens(p) == [BeginObject] + ts && Runs(StepObject, LiveObject, OName([], []), ts, ODone(p))
    ensures Runs(StepValue, LiveValue, VStart, PlainTokens(p), VDone(Plain(p)))
  {
    One(StepValue, LiveValue, VStart, BeginObject);
    forall x, t ensures Commutes(StepObject, LiveObject, StepValue, LiveValue, AfterValueObject, x, t) {}
    Nested(StepObject, LiveObject, StepValue, LiveValue, AfterValueObject, OName([], []), ts, ODone(p));
    Then(StepValue, LiveValue, VStart, [BeginObject], VObject(OName([], [])), ts, VDone(Plain(p)));
    assert [BeginObject] + ts == PlainTokens(p);
  }

  // A recording holds the tokens of one template, so it can be written to a new frame to the last token.

  lemma RecordingBegins(tokens: seq<Token>)
    ensures tokens[0..] == tokens && UnparseValue(VStart) == tokens[..0]
  {
  }

  lemma RecordingContinues(v: ValueParse, tokens: seq<Token>, i: nat, t: Template)
    requires i < |tokens| && UnparseValue(v) == tokens[..i] && Runs(StepValue, LiveValue, v, tokens[i..], VDone(t))
    ensures LiveValue(v) && |UnparseValue(v)| < |tokens|
    ensures Runs(StepValue, LiveValue, StepValue(v, tokens[i]), tokens[i + 1..], VDone(t))
    ensures UnparseValue(StepValue(v, tokens[i])) == tokens[..i + 1]
  {
    hide StepValue;
    hide UnparseValue;
    ValueReads(v, tokens[i]);
    assert tokens[i..][1..] == tokens[i + 1..];
    assert tokens[..i] + [tokens[i]] == tokens[..i + 1];
  }

  lemma RecordingEnds(v: ValueParse, tokens: seq<Token>, t: Template)
    ensures Runs(StepValue, LiveValue, v, tokens[|tokens|..], VDone(t)) ==> v == VDone(t)
  {
  }

  function Base(before: seq<Item>): ArrayParse {
    if before == [] then AFirst else ANext(before)
  }

  lemma {:induction false} BaseRuns(before: seq<Item>)
    ensures Runs(StepArray, LiveArray, AFirst, SeparatedItems(before), Base(before))
    ensures before != [] ==> Runs(StepArray, LiveArray, AFirst, ItemsTokens(before), ASeparator(before))
  {
    if before != [] {
      var n := |before| - 1;
      var front, i := before[..n], before[n];
      BaseRuns(front);
      ItemRuns(front, i);
      assert front + [i] == before;
      Then(StepArray, LiveArray, AFirst, SeparatedItems(front), Base(front), ItemTokens(i), ASeparator(before));
      Push(StepArray, LiveArray, AFirst, ItemsTokens(before), ASeparator(before), ValueSeparator);
    }
  }

  lemma {:induction false} ItemRuns(before: seq<Item>, i: Item)
    ensures Runs(StepArray, LiveArray, Base(before), ItemTokens(i), ASeparator(before + [i]))
    decreases i
  {
    match i
    case Once(p) =>
      PlainRuns(p);
      ElementRuns(before, p);
    case PerMatch(s, body) =>
      ScriptRuns(s);
      TemplateRuns(body);
      GovernedRuns(before, s, body);
  }

  lemma {:induction false} StaysElement(p: ValueParse, ts: seq<Token>, q: ValueParse)
    requires Runs(StepValue, LiveValue, p, ts, q) && !p.VStart? && !p.VScript?
    ensures Runs(StepValue, LiveElement, p, ts, q)
    ensures p != q && q.VDone? ==> q.template.Plain?
    decreases ts
  {
    if ts != [] {
      ValueReads(p, ts[0]);
      StaysElement(StepValue(p, ts[0]), ts[1..], q);
    }
  }

  lemma ElementRuns(before: seq<Item>, p: Plain)
    requires Runs(StepValue, LiveValue, VStart, PlainTokens(p), VDone(Plain(p)))
    ensures Runs(StepArray, LiveArray, Base(before), PlainTokens(p), ASeparator(before + [Once(p)]))
  {
    FirstToken(Plain(p));
    var ts := PlainTokens(p);
    assert TemplateTokens(Plain(p)) == ts;
    var begun := StepValue(VStart, ts[0]);
    BeginReads(ts[0]);
    StaysElement(begun, ts[1..], VDone(Plain(p)));
    var wrap := v => AfterElement(before, v);
    forall x, t ensures Commutes(StepValue, LiveElement, StepArray, LiveArray, wrap, x, t) {}
    Nested(StepValue, LiveElement, StepArray, LiveArray, wrap, begun, ts[1..], VDone(Plain(p)));
    assert StepArray(Base(before), ts[0]) == wrap(begun);
  }

  lemma GovernedRuns(before: seq<Item>, s: Script, body: Template)
    requires Runs(StepScript, LiveScript, SElement, ScriptTokens(s), SDone(s))
    requires Runs(StepValue, LiveValue, VStart, TemplateTokens(body), VDone(body))
    ensures Runs(StepArray, LiveArray, Base(before), ItemTokens(PerMatch(s, body)), ASeparator(before + [PerMatch(s, body)]))
  {
    var p := Base(before);
    One(StepArray, LiveArray, p, BeginScript);
    var g := x => AfterGovernor(before, x);
    forall x, t ensures Commutes(StepScript, LiveScript, StepArray, LiveArray, g, x, t) {}
    Nested(StepScript, LiveScript, StepArray, LiveArray, g, SElement, ScriptTokens(s), SDone(s));
    Then(StepArray, LiveArray, p, [BeginScript], AScript(before, SElement), ScriptTokens(s), AScripted(before, s, VStart));
    var b := x => AfterBody(before, s, x);
    forall x, t ensures Commutes(StepValue, LiveValue, StepArray, LiveArray, b, x, t) {}
    Nested(StepValue, LiveValue, StepArray, LiveArray, b, VStart, TemplateTokens(body), VDone(body));
    Then(StepArray, LiveArray, p, [BeginScript] + ScriptTokens(s), AScripted(before, s, VStart),
         TemplateTokens(body), ASeparator(before + [PerMatch(s, body)]));
  }

  lemma {:induction false} AimsRuns(members: seq<Member>, aims: seq<Script>)
    ensures Runs(StepObject, LiveObject, OName(members, []), AimTokens(aims), OName(members, aims))
    decreases aims
  {
    if aims != [] {
      var n := |aims| - 1;
      var front, s := aims[..n], aims[n];
      AimsRuns(members, front);
      ScriptRuns(s);
      var p, ts := OName(members, []), AimTokens(front);
      Push(StepObject, LiveObject, p, ts, OName(members, front), BeginScript);
      var wrap := x => AfterAim(members, front, x);
      forall x, t ensures Commutes(StepScript, LiveScript, StepObject, LiveObject, wrap, x, t) {}
      Nested(StepScript, LiveScript, StepObject, LiveObject, wrap, SElement, ScriptTokens(s), SDone(s));
      assert front + [s] == aims;
      Then(StepObject, LiveObject, p, ts + [BeginScript], OScript(members, front, SElement), ScriptTokens(s), OName(members, aims));
    }
  }

  lemma {:induction false} MemberRuns(members: seq<Member>, m: Member)
    ensures Runs(StepObject, LiveObject, OName(members, []), MemberTokens(m), OMemberSeparator(members, m))
    decreases m
  {
    AimsRuns(members, m.aims);
    TemplateRuns(m.body);
    var p, ts := OName(members, []), AimTokens(m.aims);
    Push(StepObject, LiveObject, p, ts, OName(members, m.aims), StringToken(m.name));
    Push(StepObject, LiveObject, p, ts + [StringToken(m.name)], OSeparator(members, m.aims, m.name), NameSeparator);
    var wrap := x => AfterMember(members, m.aims, m.name, x);
    forall x, t ensures Commutes(StepValue, LiveValue, StepObject, LiveObject, wrap, x, t) {}
    Nested(StepValue, LiveValue, StepObject, LiveObject, wrap, VStart, TemplateTokens(m.body), VDone(m.body));
    Then(StepObject, LiveObject, p, ts + [StringToken(m.name)] + [NameSeparator], OValue(members, m.aims, m.name, VStart),
         TemplateTokens(m.body), OMemberSeparator(members, m));
    assert ts + [StringToken(m.name)] + [NameSeparator] == ts + [StringToken(m.name), NameSeparator];
  }

  lemma {:induction false} MembersRuns(members: seq<Member>)
    ensures Runs(StepObject, LiveObject, OName([], []), MembersTokens(members), OName(members, []))
  {
    if members != [] {
      var n := |members| - 1;
      var front, m := members[..n], members[n];
      MembersRuns(front);
      MemberRuns(front, m);
      assert front + [m] == members;
      var p, ts := OName([], []), MembersTokens(front);
      Then(StepObject, LiveObject, p, ts, OName(front, []), MemberTokens(m), OMemberSeparator(front, m));
      Push(StepObject, LiveObject, p, ts + MemberTokens(m), OMemberSeparator(front, m), ValueSeparator);
    }
  }

  predicate IsRoot(p: Plain) {
    p.ArrayT? || p.EmptyObjectT? || p.ObjectT?
  }

  lemma {:induction false} RootAimsRuns(aims: seq<Script>)
    ensures Runs(StepText, LiveText, TRoot([]), AimTokens(aims), TRoot(aims))
  {
    if aims != [] {
      var n := |aims| - 1;
      var front, s := aims[..n], aims[n];
      RootAimsRuns(front);
      ScriptRuns(s);
      var ts := AimTokens(front);
      Push(StepText, LiveText, TRoot([]), ts, TRoot(front), BeginScript);
      var wrap := x => AfterRootScript(front, x);
      forall x, t ensures Commutes(StepScript, LiveScript, StepText, LiveText, wrap, x, t) {}
      Nested(StepScript, LiveScript, StepText, LiveText, wrap, SElement, ScriptTokens(s), SDone(s));
      assert front + [s] == aims;
      Then(StepText, LiveText, TRoot([]), ts + [BeginScript], TScript(front, SElement), ScriptTokens(s), TRoot(aims));
    }
  }

  function RootOf(aims: seq<Script>, p: ValueParse): TextParse {
    match p
    case VArray(a) => TArray(aims, a)
    case VObject(o) => TObject(aims, o)
    case VDone(Plain(root)) => TDone(Document(aims, root))
    case VFailed => TFailed
    case _ => TThrown
  }

  /** After its first token the root runs as a value frame would. */
  lemma {:induction false} RootRuns(aims: seq<Script>, p: ValueParse, ts: seq<Token>, root: Plain)
    requires Runs(StepValue, LiveValue, p, ts, VDone(Plain(root)))
    requires p.VArray? || p.VObject? || p == VDone(Plain(root))
    ensures Runs(StepText, LiveText, RootOf(aims, p), ts, TDone(Document(aims, root)))
    decreases ts
  {
    if ts != [] {
      var q := StepValue(p, ts[0]);
      ValueReads(p, ts[0]);
      if q.VDone? {
        assert !LiveValue(q) && Runs(StepValue, LiveValue, q, ts[1..], VDone(Plain(root)));
      }
      RootRuns(aims, q, ts[1..], root);
      assert StepText(RootOf(aims, p), ts[0]) == RootOf(aims, q);
    }
  }

  lemma DocumentRuns(d: Document)
    requires IsRoot(d.root)
    ensures Runs(StepText, LiveText, TRoot([]), DocumentTokens(d), TDone(d))
  {
    RootAimsRuns(d.aims);
    PlainRuns(d.root);
    var ts := PlainTokens(d.root);
    RootRuns(d.aims, StepValue(VStart, ts[0]), ts[1..], d.root);
    Then(StepText, LiveText, TRoot([]), AimTokens(d.aims), TRoot(d.aims), ts, TDone(d));
  }

  // ---------------------------------------------------------------------------------------------
  // Every live parse can be completed, without scripts that were not begun

  function CompleteScript(p: ScriptParse): seq<Token> {
    match p
    case SExpectAttribute(_) => [Name("a"), EndScript]
    case SExpectMethod(_, _) => [Name("m"), BeginParameter, EndParameter, EndScript]
    case SExpectBegin(_, _, _) => [BeginParameter, EndParameter, EndScript]
    case SAfterBegin(_) => [EndParameter, EndScript]
    case SParameter(_, value) => CompleteValue(value) + [EndParameter, EndScript]
    case SEndParameter(_, _) => [EndParameter, EndScript]
    case _ => [EndScript]
  }

  function CompleteValue(p: ValueParse): seq<Token> {
    match p
    case VScript(s) => CompleteScript(s)
    case VArray(a) => CompleteArray(a)
    case VObject(o) => CompleteObject(o)
    case _ => [NullToken]
  }

  function CompleteArray(p: ArrayParse): seq<Token> {
    match p
    case AScript(_, s) => CompleteScript(s) + [NullToken, EndArray]
    case AScripted(_, _, body) => CompleteValue(body) + [EndArray]
    case AElement(_, element) => CompleteValue(element) + [EndArray]
    case ANext(_) => [NullToken, EndArray]
    case _ => [EndArray]
  }

  function CompleteObject(p: ObjectParse): seq<Token> {
    match p
    case OName(members, _) => if members == [] then [EndObject] else CompleteMember()
    case OScript(members, _, s) => CompleteScript(s) + (if members == [] then [EndObject] else CompleteMember())
    case OSeparator(_, _, _) => [NameSeparator, NullToken, EndObject]
    case OValue(_, _, _, value) => CompleteValue(value) + [EndObject]
    case _ => [EndObject]
  }

  function CompleteMember(): seq<Token> {
    [StringToken("n"), NameSeparator, NullToken, EndObject]
  }

  function CompleteText(p: TextParse): seq<Token> {
    match p
    case TRoot(_) => [BeginArray, EndArray]
    case TScript(_, s) => CompleteScript(s) + [BeginArray, EndArray]
    case TArray(_, a) => CompleteArray(a)
    case TObject(_, o) => CompleteObject(o)
    case _ => []
  }

  lemma {:induction false} CompletesScript(p: ScriptParse) returns (s: Script)
    requires LiveScript(p)
    ensures Runs(StepScript, LiveScript, p, CompleteScript(p), SDone(s))
  {
    hide TargetTokens;
    hide TemplateTokens;
    hide CompleteValue;
    match p
    case SExpectAttribute(e) =>
      One(StepScript, LiveScript, p, Name("a"));
      s := EndsScript(p, [Name("a")], SAfterAttribute(e, "a"));
    case SExpectMethod(e, a) =>
      One(StepScript, LiveScript, p, Name("m"));
      Push(StepScript, LiveScript, p, [Name("m")], SExpectBegin(e, a, "m"), BeginParameter);
      Push(StepScript, LiveScript, p, [Name("m")] + [BeginParameter], SAfterBegin(OfAttribute(e, a, "m")), EndParameter);
      s := EndsScript(p, [Name("m")] + [BeginParameter] + [EndParameter], SEndScript(OfAttribute(e, a, "m"), None));
      assert [Name("m")] + [BeginParameter] + [EndParameter] + [EndScript] == CompleteScript(p);
    case SExpectBegin(e, a, m) =>
      One(StepScript, LiveScript, p, BeginParameter);
      Push(StepScript, LiveScript, p, [BeginParameter], SAfterBegin(OfAttribute(e, a, m)), EndParameter);
      s := EndsScript(p, [BeginParameter] + [EndParameter], SEndScript(OfAttribute(e, a, m), None));
      assert [BeginParameter] + [EndParameter] + [EndScript] == CompleteScript(p);
    case SAfterBegin(target) =>
      One(StepScript, LiveScript, p, EndParameter);
      s := EndsScript(p, [EndParameter], SEndScript(target, None));
      assert [EndParameter] + [EndScript] == CompleteScript(p);
    case SParameter(target, value) =>
      var t := CompletesValue(value);
      var wrap := v => AfterParameter(target, v);
      forall x, t ensures Commutes(StepValue, LiveValue, StepScript, LiveScript, wrap, x, t) {}
      var ts := CompleteValue(value);
      Nested(StepValue, LiveValue, StepScript, LiveScript, wrap, value, ts, VDone(t));
      Push(StepScript, LiveScript, p, ts, SEndParameter(target, t), EndParameter);
      s := EndsScript(p, ts + [EndParameter], SEndScript(target, Some(t)));
      assert ts + [EndParameter] + [EndScript] == CompleteScript(p);
    case SEndParameter(target, t) =>
      One(StepScript, LiveScript, p, EndParameter);
      s := EndsScript(p, [EndParameter], SEndScript(target, Some(t)));
      assert [EndParameter] + [EndScript] == CompleteScript(p);
    case _ => s := EndsScript(p, [], p);
  }

  lemma EndsScript(p: ScriptParse, ts: seq<Token>, q: ScriptParse) returns (s: Script)
    requires Runs(StepScript, LiveScript, p, ts, q)
    requires q.SElement? || q.SAfterElement? || q.SAfterAttribute? || q.SEndScript?
    ensures Runs(StepScript, LiveScript, p, ts + [EndScript], SDone(s))
  {
    Push(StepScript, LiveScript, p, ts, q, EndScript);
    s := StepScript(q, EndScript).script;
  }

  lemma {:induction false} CompletesValue(p: ValueParse) returns (t: Template)
    requires LiveValue(p)
    ensures Runs(StepValue, LiveValue, p, CompleteValue(p), VDone(t))
    ensures p.VArray? || p.VObject? ==> t.Plain?
  {
    match p
    case VStart =>
      One(StepValue, LiveValue, p, NullToken);
      t := Plain(NullT);
    case VScript(s) =>
      var script := CompletesScript(s);
      forall x, t ensures Commutes(StepScript, LiveScript, StepValue, LiveValue, AfterValueScript, x, t) {}
      Nested(StepScript, LiveScript, StepValue, LiveValue, AfterValueScript, s, CompleteScript(s), SDone(script));
      t := Selected(script);
    case VArray(a) =>
      var items := CompletesArray(a);
      forall x, t ensures Commutes(StepArray, LiveArray, StepValue, LiveValue, AfterValueArray, x, t) {}
      Nested(StepArray, LiveArray, StepValue, LiveValue, AfterValueArray, a, CompleteArray(a), ADone(items));
      t := Plain(ArrayT(items));
    case VObject(o) =>
      var plain := CompletesObject(o);
      forall x, t ensures Commutes(StepObject, LiveObject, StepValue, LiveValue, AfterValueObject, x, t) {}
      Nested(StepObject, LiveObject, StepValue, LiveValue, AfterValueObject, o, CompleteObject(o), ODone(plain));
      t := Plain(plain);
  }

  lemma {:induction false} CompletesArray(p: ArrayParse) returns (items: seq<Item>)
    requires LiveArray(p)
    ensures Runs(StepArray, LiveArray, p, CompleteArray(p), ADone(items))
  {
    match p
    case AScript(before, s) =>
      var script := CompletesScript(s);
      items := CompletesGoverned(before, s, script);
    case AScripted(before, governor, body) =>
      var t := CompletesValue(body);
      items := CompletesBody(before, governor, body, t);
    case AElement(before, element) =>
      var t := CompletesValue(element);
      items := CompletesElement(before, element, t);
    case ANext(before) =>
      items := before + [Once(NullT)];
      One(StepArray, LiveArray, p, NullToken);
      EndsArray(p, [NullToken], ASeparator(items), items);
      assert [NullToken] + [EndArray] == CompleteArray(p);
    case AFirst =>
      items := [];
      EndsArray(p, [], p, items);
    case ASeparator(before) =>
      items := before;
      EndsArray(p, [], p, items);
  }

  lemma EndsArray(p: ArrayParse, ts: seq<Token>, q: ArrayParse, items: seq<Item>)
    requires Runs(StepArray, LiveArray, p, ts, q) && LiveArray(q) && StepArray(q, EndArray) == ADone(items)
    ensures Runs(StepArray, LiveArray, p, ts + [EndArray], ADone(items))
  {
    hide *;
    Push(StepArray, LiveArray, p, ts, q, EndArray);
  }

  lemma CompletesGoverned(before: seq<Item>, s: ScriptParse, script: Script) returns (items: seq<Item>)
    requires LiveScript(s) && Runs(StepScript, LiveScript, s, CompleteScript(s), SDone(script))
    ensures Runs(StepArray, LiveArray, AScript(before, s), CompleteArray(AScript(before, s)), ADone(items))
  {
    hide Runs;
    hide CompleteScript;
    hide StepScript;
    var p := AScript(before, s);
    var ts, wrap := CompleteScript(s), x => AfterGovernor(before, x);
    forall x, t ensures Commutes(StepScript, LiveScript, StepArray, LiveArray, wrap, x, t) {}
    Nested(StepScript, LiveScript, StepArray, LiveArray, wrap, s, ts, SDone(script));
    assert LiveValue(VStart) && StepValue(VStart, NullToken) == VDone(Plain(NullT));
    Push(StepArray, LiveArray, p, ts, AScripted(before, script, VStart), NullToken);
    items := before + [PerMatch(script, Plain(NullT))];
    EndsArray(p, ts + [NullToken], ASeparator(items), items);
    assert ts + [NullToken] + [EndArray] == CompleteArray(p);
  }

  lemma CompletesBody(before: seq<Item>, governor: Script, body: ValueParse, t: Template) returns (items: seq<Item>)
    requires LiveValue(body) && Runs(StepValue, LiveValue, body, CompleteValue(body), VDone(t))
    ensures var p := AScripted(before, governor, body); Runs(StepArray, LiveArray, p, CompleteArray(p), ADone(items))
  {
    hide Runs;
    hide CompleteValue;
    hide StepValue;
    var ts, wrap := CompleteValue(body), x => AfterBody(before, governor, x);
    forall x, t ensures Commutes(StepValue, LiveValue, StepArray, LiveArray, wrap, x, t) {}
    Nested(StepValue, LiveValue, StepArray, LiveArray, wrap, body, ts, VDone(t));
    items := before + [PerMatch(governor, t)];
    EndsArray(AScripted(before, governor, body), ts, ASeparator(items), items);
  }

  lemma CompletesElement(before: seq<Item>, element: ValueParse, t: Template) returns (items: seq<Item>)
    requires LiveElement(element) && Runs(StepValue, LiveValue, element, CompleteValue(element), VDone(t))
    ensures var p := AElement(before, element); Runs(StepArray, LiveArray, p, CompleteArray(p), ADone(items))
  {
    hide Runs;
    hide CompleteValue;
    hide StepValue;
    var ts, wrap := CompleteValue(element), x => AfterElement(before, x);
    StaysElement(element, ts, VDone(t));
    forall x, t ensures Commutes(StepValue, LiveElement, StepArray, LiveArray, wrap, x, t) {}
    Nested(StepValue, LiveElement, StepArray, LiveArray, wrap, element, ts, VDone(t));
    items := before + [Once(t.plain)];
    EndsArray(AElement(before, element), ts, ASeparator(items), items);
  }

  lemma {:induction false} CompletesObject(p: ObjectParse) returns (plain: Plain)
    requires LiveObject(p)
    ensures Runs(StepObject, LiveObject, p, CompleteObject(p), ODone(plain))
    ensures IsRoot(plain)
  {
    match p
    case OName(members, aims) =>
      plain := CompletesName(p, [], members, aims);
      assert [] + CompleteObject(p) == CompleteObject(p);
    case OScript(members, aims, s) =>
      var script := CompletesScript(s);
      var ts, wrap := CompleteScript(s), x => AfterAim(members, aims, x);
      forall x, t ensures Commutes(StepScript, LiveScript, StepObject, LiveObject, wrap, x, t) {}
      Nested(StepScript, LiveScript, StepObject, LiveObject, wrap, s, ts, SDone(script));
      plain := CompletesName(p, ts, members, aims + [script]);
    case OSeparator(members, aims, name) =>
      One(StepObject, LiveObject, p, NameSeparator);
      plain := CompletesMember(p, [NameSeparator], members, aims, name);
      assert [NameSeparator] + [NullToken, EndObject] == CompleteObject(p);
    case OValue(members, aims, name, value) =>
      var t := CompletesValue(value);
      var ts, wrap := CompleteValue(value), x => AfterMember(members, aims, name, x);
      forall x, t ensures Commutes(StepValue, LiveValue, StepObject, LiveObject, wrap, x, t) {}
      Nested(StepValue, LiveValue, StepObject, LiveObject, wrap, value, ts, VDone(t));
      plain := ObjectT(members, Member(aims, name, t));
      Push(StepObject, LiveObject, p, ts, OMemberSeparator(members, Member(aims, name, t)), EndObject);
    case OMemberSeparator(members, last) =>
      plain := ObjectT(members, last);
      One(StepObject, LiveObject, p, EndObject);
      assert [EndObject] == CompleteObject(p);
  }

  lemma CompletesName(p: ObjectParse, ts: seq<Token>, members: seq<Member>, aims: seq<Script>) returns (plain: Plain)
    requires Runs(StepObject, LiveObject, p, ts, OName(members, aims))
    ensures Runs(StepObject, LiveObject, p, ts + (if members == [] then [EndObject] else CompleteMember()), ODone(plain))
    ensures IsRoot(plain)
  {
    if members == [] {
      plain := EmptyObjectT(aims);
      Push(StepObject, LiveObject, p, ts, OName(members, aims), EndObject);
    } else {
      Push(StepObject, LiveObject, p, ts, OName(members, aims), StringToken("n"));
      Push(StepObject, LiveObject, p, ts + [StringToken("n")], OSeparator(members, aims, "n"), NameSeparator);
      plain := CompletesMember(p, ts + [StringToken("n")] + [NameSeparator], members, aims, "n");
      assert ts + [StringToken("n")] + [NameSeparator] + [NullToken, EndObject] == ts + CompleteMember();
    }
  }

  lemma CompletesMember(p: ObjectParse, ts: seq<Token>, members: seq<Member>, aims: seq<Script>, name: string) returns (plain: Plain)
    requires Runs(StepObject, LiveObject, p, ts, OValue(members, aims, name, VStart))
    ensures Runs(StepObject, LiveObject, p, ts + [NullToken, EndObject], ODone(plain))
    ensures IsRoot(plain)
  {
    var m := Member(aims, name, Plain(NullT));
    plain := ObjectT(members, m);
    assert LiveValue(VStart) && StepValue(VStart, NullToken) == VDone(Plain(NullT));
    Push(StepObject, LiveObject, p, ts, OValue(members, aims, name, VStart), NullToken);
    Push(StepObject, LiveObject, p, ts + [NullToken], OMemberSeparator(members, m), EndObject);
    assert ts + [NullToken] + [EndObject] == ts + [NullToken, EndObject];
  }

  lemma CompletesText(p: TextParse) returns (d: Document)
    requires LiveText(p)
    ensures Runs(StepText, LiveText, p, CompleteText(p), TDone(d))
    ensures CompleteText(p) != [] && IsRoot(d.root)
  {
    match p
    case TRoot(aims) => d := CompletesRoot(p, [], aims);
      assert [] + [BeginArray, EndArray] == CompleteText(p);
    case TScript(aims, s) =>
      var script := CompletesScript(s);
      var ts, wrap := CompleteScript(s), x => AfterRootScript(aims, x);
      forall x, t ensures Commutes(StepScript, LiveScript, StepText, LiveText, wrap, x, t) {}
      Nested(StepScript, LiveScript, StepText, LiveText, wrap, s, ts, SDone(script));
      d := CompletesRoot(p, ts, aims + [script]);
    case TArray(aims, a) =>
      var items := CompletesArray(a);
      var wrap := x => AfterRootArray(aims, x);
      forall x, t ensures Commutes(StepArray, LiveArray, StepText, LiveText, wrap, x, t) {}
      Nested(StepArray, LiveArray, StepText, LiveText, wrap, a, CompleteArray(a), ADone(items));
      d := Document(aims, ArrayT(items));
    case TObject(aims, o) =>
      var plain := CompletesObject(o);
      var wrap := x => AfterRootObject(aims, x);
      forall x, t ensures Commutes(StepObject, LiveObject, StepText, LiveText, wrap, x, t) {}
      Nested(StepObject, LiveObject, StepText, LiveText, wrap, o, CompleteObject(o), ODone(plain));
      d := Document(aims, plain);
  }

  lemma CompletesRoot(p: TextParse, ts: seq<Token>, aims: seq<Script>) returns (d: Document)
    requires Runs(StepText, LiveText, p, ts, TRoot(aims))
    ensures Runs(StepText, LiveText, p, ts + [BeginArray, EndArray], TDone(d))
    ensures IsRoot(d.root)
  {
    d := Document(aims, ArrayT([]));
    Push(StepText, LiveText, p, ts, TRoot(aims), BeginArray);
    Push(StepText, LiveText, p, ts + [BeginArray], TArray(aims, AFirst), EndArray);
    assert ts + [BeginArray] + [EndArray] == ts + [BeginArray, EndArray];
  }

  // ---------------------------------------------------------------------------------------------
  // Acceptance

  function AfterTokens(ts: seq<Token>): TextParse {
    Feed(StepText, TRoot([]), ts)
  }

  lemma {:induction false} FeedReads(p: TextParse, ts: seq<Token>)
    requires LiveText(p) || p.TDone? || !TProgress(p)
    ensures var q := Feed(StepText, p, ts);
            q == TFailed || q == TThrown
            || ((q.TDone? || LiveText(q)) && Runs(StepText, LiveText, p, ts, q) && (p != TFailed && p != TThrown ==> UnparseText(q) == UnparseText(p) + ts))
    decreases ts
  {
    if ts == [] {
      assert UnparseText(p) + ts == UnparseText(p);
    } else {
      var next := StepText(p, ts[0]);
      if LiveText(p) {
        TextReads(p, ts[0]);
        FeedReads(next, ts[1..]);
        assert UnparseText(p) + [ts[0]] + ts[1..] == UnparseText(p) + ts;
      } else {
        FeedReads(next, ts[1..]);
        ThrownStays(ts[1..]);
      }
    }
  }

  lemma {:induction false} ThrownStays(ts: seq<Token>)
    ensures Feed(StepText, TThrown, ts) == TThrown
    decreases ts
  {
    if ts != [] {
      ThrownStays(ts[1..]);
    }
  }

  /** Done: exactly on the tokens of a document, which is then what was read. */
  lemma DoneIffDocument(ts: seq<Token>, d: Document)
    ensures AfterTokens(ts) == TDone(d) <==> IsRoot(d.root) && DocumentTokens(d) == ts
  {
    FeedReads(TRoot([]), ts);
    assert [] + ts == ts;
    DoneIsRoot(TRoot([]), ts);
    if IsRoot(d.root) {
      DocumentRuns(d);
      RunsFeed(StepText, LiveText, TRoot([]), DocumentTokens(d), TDone(d));
    }
  }

  /** In progress: exactly on the proper prefixes of documents. */
  lemma InProgressIffPrefix(ts: seq<Token>)
    ensures TProgress(AfterTokens(ts)) <==> exists d: Document :: IsRoot(d.root) && ts < DocumentTokens(d)
  {
    var p := AfterTokens(ts);
    FeedReads(TRoot([]), ts);
    assert [] + ts == ts;
    if TProgress(p) {
      var d := CompletesText(p);
      Then(StepText, LiveText, TRoot([]), ts, p, CompleteText(p), TDone(d));
      RunsFeed(StepText, LiveText, TRoot([]), ts + CompleteText(p), TDone(d));
      DoneIffDocument(ts + CompleteText(p), d);
    }
    forall d: Document | IsRoot(d.root) && ts < DocumentTokens(d) ensures TProgress(p) {
      DocumentRuns(d);
      RunsFeed(StepText, LiveText, TRoot([]), DocumentTokens(d), TDone(d));
      assert DocumentTokens(d)[..|ts|] == ts;
      assert LiveText(p);
    }
  }

  /** A text in progress never throws: every frame it writes to is in progress as well. */
  lemma NeverThrows(ts: seq<Token>, t: Token)
    requires TProgress(AfterTokens(ts))
    ensures LiveText(AfterTokens(ts)) && AfterTokens(ts + [t]) != TThrown
  {
    FeedReads(TRoot([]), ts);
    FeedSnoc(TRoot([]), ts, t);
    TextReads(AfterTokens(ts), t);
  }

  /** Failure comes with the first token no document continues with, and never a token later. */
  lemma FailsAtOnce(ts: seq<Token>, t: Token)
    requires TProgress(AfterTokens(ts))
    ensures AfterTokens(ts + [t]) == TFailed <==> !exists d: Document :: IsRoot(d.root) && ts + [t] <= DocumentTokens(d)
  {
    FeedReads(TRoot([]), ts);
    FeedReads(TRoot([]), ts + [t]);
    var p, q := AfterTokens(ts), AfterTokens(ts + [t]);
    FeedSnoc(TRoot([]), ts, t);
    TextReads(p, t);
    InProgressIffPrefix(ts + [t]);
    if q.TDone? {
      DoneIffDocument(ts + [t], q.document);
    }
    forall d: Document | IsRoot(d.root) && ts + [t] <= DocumentTokens(d) ensures q != TFailed {
      if DocumentTokens(d) == ts + [t] {
        DoneIffDocument(ts + [t], d);
      }
    }
  }

  lemma {:induction false} FeedSnoc(p: TextParse, ts: seq<Token>, t: Token)
    ensures Feed(StepText, p, ts + [t]) == StepText(Feed(StepText, p, ts), t)
    decreases ts
  {
    if ts == [] {
      assert ts + [t] == [t];
    } else {
      FeedSnoc(StepText(p, ts[0]), ts[1..], t);
      assert (ts + [t])[1..] == ts[1..] + [t];
    }
  }

  lemma AfterNone()
    ensures AfterTokens([]) == TRoot([])
  {
  }

  lemma AfterOneMore(ts: seq<Token>, t: Token)
    ensures AfterTokens(ts + [t]) == StepText(AfterTokens(ts), t)
    ensures LiveText(AfterTokens(ts)) ==> TProgress(AfterTokens(ts))
  {
    hide Feed;
    FeedSnoc(TRoot([]), ts, t);
  }

  lemma {:induction false} DoneIsRoot(p: TextParse, ts: seq<Token>)
    requires LiveText(p) || (p.TDone? ==> IsRoot(p.document.root))
    ensures var q := Feed(StepText, p, ts); q.TDone? ==> IsRoot(q.document.root)
    decreases ts
  {
    if ts != [] {
      if LiveText(p) {
        TextReads(p, ts[0]);
        if p.TObject? {
          ObjectReads(p.ofObject, ts[0]);
        }
      }
      DoneIsRoot(StepText(p, ts[0]), ts[1..]);
    }
  }

  // ---------------------------------------------------------------------------------------------
  // Without scripts: JSON texts, section 2 of RFC 4627

  // The grammar as derivation trees; their tokens are `DocumentTokens`.
  predicate IsJsonPlain(p: Plain) {
    match p
    case ArrayT(items) => forall i :: 0 <= i < |items| ==> items[i].Once? && IsJsonPlain(items[i].plain)
    case EmptyObjectT(aims) => aims == []
    case ObjectT(members, last) => IsJsonMember(last) && forall i :: 0 <= i < |members| ==> IsJsonMember(members[i])
    case _ => true
  }

  predicate IsJsonMember(m: Member) {
    m.aims == [] && m.body.Plain? && IsJsonPlain(m.body.plain)
  }

  predicate IsJsonText(d: Document) {
    d.aims == [] && IsRoot(d.root) && IsJsonPlain(d.root)
  }

  predicate ScriptFree(ts: seq<Token>) {
    BeginScript !in ts
  }

  lemma {:induction false} PlainScriptFree(p: Plain)
    ensures ScriptFree(PlainTokens(p)) <==> IsJsonPlain(p)
  {
    match p
    case ArrayT(items) => ItemsScriptFree(items);
    case EmptyObjectT(aims) => AimsScriptFree(aims);
    case ObjectT(members, last) =>
      MembersScriptFree(members);
      MemberScriptFree(last);
    case _ =>
  }

  lemma {:induction false} AimsScriptFree(aims: seq<Script>)
    ensures ScriptFree(AimTokens(aims)) <==> aims == []
  {
    if aims != [] {
      var n := |AimTokens(aims[..|aims| - 1])|;
      assert AimTokens(aims)[n] == BeginScript;
    }
  }

  lemma {:induction false} ItemsScriptFree(items: seq<Item>)
    ensures ScriptFree(ItemsTokens(items)) <==> forall i :: 0 <= i < |items| ==> items[i].Once? && IsJsonPlain(items[i].plain)
    ensures ScriptFree(SeparatedItems(items)) <==> ScriptFree(ItemsTokens(items))
  {
    if items != [] {
      var n := |items| - 1;
      ItemsScriptFree(items[..n]);
      ItemScriptFree(items[n]);
      forall i | 0 <= i < n ensures items[..n][i] == items[i] {}
    }
  }

  lemma {:induction false} ItemScriptFree(i: Item)
    ensures ScriptFree(ItemTokens(i)) <==> i.Once? && IsJsonPlain(i.plain)
    decreases i
  {
    if i.Once? {
      PlainScriptFree(i.plain);
    } else {
      assert ItemTokens(i)[0] == BeginScript;
    }
  }

  lemma {:induction false} MemberScriptFree(m: Member)
    ensures ScriptFree(MemberTokens(m)) <==> IsJsonMember(m)
    decreases m
  {
    AimsScriptFree(m.aims);
    if m.body.Plain? {
      PlainScriptFree(m.body.plain);
    } else {
      assert TemplateTokens(m.body)[0] == BeginScript;
    }
  }

  lemma {:induction false} MembersScriptFree(members: seq<Member>)
    ensures ScriptFree(MembersTokens(members)) <==> forall i :: 0 <= i < |members| ==> IsJsonMember(members[i])
  {
    if members != [] {
      var n := |members| - 1;
      MembersScriptFree(members[..n]);
      MemberScriptFree(members[n]);
      forall i | 0 <= i < n ensures members[..n][i] == members[i] {}
    }
  }

  lemma DocumentScriptFree(d: Document)
    requires IsRoot(d.root)
    ensures ScriptFree(DocumentTokens(d)) <==> IsJsonText(d)
  {
    AimsScriptFree(d.aims);
    PlainScriptFree(d.root);
  }

  lemma {:induction false} ScriptCompletionFree(p: ScriptParse)
    ensures ScriptFree(CompleteScript(p))
  {
    if p.SParameter? {
      ValueCompletionFree(p.value);
    }
  }

  lemma {:induction false} ValueCompletionFree(p: ValueParse)
    ensures ScriptFree(CompleteValue(p))
  {
    match p
    case VScript(s) => ScriptCompletionFree(s);
    case VArray(a) => ArrayCompletionFree(a);
    case VObject(o) => ObjectCompletionFree(o);
    case _ =>
  }

  lemma {:induction false} ArrayCompletionFree(p: ArrayParse)
    ensures ScriptFree(CompleteArray(p))
  {
    match p
    case AScript(_, s) => ScriptCompletionFree(s);
    case AScripted(_, _, body) => ValueCompletionFree(body);
    case AElement(_, element) => ValueCompletionFree(element);
    case _ =>
  }

  lemma {:induction false} ObjectCompletionFree(p: ObjectParse)
    ensures ScriptFree(CompleteObject(p))
  {
    match p
    case OScript(_, _, s) => ScriptCompletionFree(s);
    case OValue(_, _, _, value) => ValueCompletionFree(value);
    case _ =>
  }

  lemma TextCompletionFree(p: TextParse)
    ensures ScriptFree(CompleteText(p))
  {
    match p
    case TScript(_, s) => ScriptCompletionFree(s);
    case TArray(_, a) => ArrayCompletionFree(a);
    case TObject(_, o) => ObjectCompletionFree(o);
    case _ =>
  }

  /** On a token string without scripts the frames decide the grammar of RFC 4627. */
  lemma AcceptsJsonTexts(ts: seq<Token>)
    requires ScriptFree(ts)
    ensures AfterTokens(ts).TDone? <==> exists d: Document :: IsJsonText(d) && DocumentTokens(d) == ts
    ensures TProgress(AfterTokens(ts)) <==> exists d: Document :: IsJsonText(d) && ts < DocumentTokens(d)
  {
    var p := AfterTokens(ts);
    if p.TDone? {
      DoneIffDocument(ts, p.document);
      DocumentScriptFree(p.document);
    }
    forall d: Document | IsJsonText(d) && DocumentTokens(d) == ts ensures p.TDone? {
      DoneIffDocument(ts, d);
    }
    InProgressIffPrefix(ts);
    if TProgress(p) {
      FeedReads(TRoot([]), ts);
      var d := CompletesText(p);
      Then(StepText, LiveText, TRoot([]), ts, p, CompleteText(p), TDone(d));
      RunsFeed(StepText, LiveText, TRoot([]), ts + CompleteText(p), TDone(d));
      DoneIffDocument(ts + CompleteText(p), d);
      TextCompletionFree(p);
      DocumentScriptFree(d);
    }
  }
}
