/**
 The language the JSON frames accept, and what a template in it means.

 A template is JSON (section 2 of RFC 4627) with scripts.  A script in value position stands for
 the text it selects; before an array element it repeats the element once per match; before an
 object member it re-aims the members after it; before the root it re-aims the document.

 `Step...` is the reading of one token as the frames do it, without any evaluation: a partial parse
 tree per frame.  The `Unparse...` functions give the tokens a partial parse has read.
 */
module JsonTemplate {
  import opened Wrappers

  datatype Token =
    | BeginScript | EndScript | BeginParameter | EndParameter | TokenSeparator | Name(name: string)
    | BeginArray | EndArray | BeginObject | EndObject | NameSeparator | ValueSeparator
    | StringToken(text: string) | NumberToken(number: real) | BoolToken(flag: bool) | NullToken

  datatype Value =
    | Null
    | Bool(flag: bool)
    | Number(number: real)
    | String(text: string)
    | Array(elements: seq<Value>)
    | Object(members: map<string, Value>)

  // ---------------------------------------------------------------------------------------------
  // Templates

  // The method of a script: <m(..)>, <e:m(..)> or <:m(..)>, <e:a:m(..)> or <:a:m(..)>.
  datatype Target =
    | Method(m: string)
    | OfElement(e: Option<string>, m: string)
    | OfAttribute(e: Option<string>, a: string, m: string)

  datatype Script =
    | Nothing
    | Element(name: string)
    | Attribute(e: Option<string>, a: string)
    | Call(target: Target, parameter: Option<Template>)

  datatype Template = Selected(script: Script) | Plain(plain: Plain)

  datatype Plain =
    | NullT
    | BoolT(flag: bool)
    | NumberT(number: real)
    | StringT(text: string)
    | ArrayT(elements: seq<Item>)
    | EmptyObjectT(aims: seq<Script>)
    | ObjectT(members: seq<Member>, last: Member)

  // A plain element cannot begin with a script: in an array a script always governs an element.
  datatype Item = Once(plain: Plain) | PerMatch(script: Script, body: Template)

  datatype Member = Member(aims: seq<Script>, name: string, body: Template)

  datatype Document = Document(aims: seq<Script>, root: Plain)

  // ---------------------------------------------------------------------------------------------
  // Partial parses, one type per frame

  datatype ScriptParse =
    | SElement
    | SAfterElement(name: string)
    | SExpectAttribute(e: Option<string>)
    | SAfterAttribute(e: Option<string>, a: string)
    | SExpectMethod(e: Option<string>, a: string)
    | SExpectBegin(e: Option<string>, a: string, m: string)
    | SAfterBegin(target: Target)
    | SParameter(target: Target, value: ValueParse)
    | SEndParameter(target: Target, parameter: Template)
    | SEndScript(target: Target, result: Option<Template>)
    | SDone(script: Script)
    | SFailed
    | SThrown

  datatype ValueParse =
    | VStart
    | VScript(ofScript: ScriptParse)
    | VArray(ofArray: ArrayParse)
    | VObject(ofObject: ObjectParse)
    | VDone(template: Template)
    | VFailed
    | VThrown

  datatype ArrayParse =
    | AFirst
    | AScript(before: seq<Item>, script: ScriptParse)
    | AScripted(before: seq<Item>, governor: Script, body: ValueParse)
    | AElement(before: seq<Item>, element: ValueParse)
    | ASeparator(items: seq<Item>)
    | ANext(items: seq<Item>)
    | ADone(items: seq<Item>)
    | AFailed
    | AThrown

  datatype ObjectParse =
    | OName(members: seq<Member>, aims: seq<Script>)
    | OScript(members: seq<Member>, aims: seq<Script>, script: ScriptParse)
    | OSeparator(members: seq<Member>, aims: seq<Script>, name: string)
    | OValue(members: seq<Member>, aims: seq<Script>, name: string, value: ValueParse)
    | OMemberSeparator(members: seq<Member>, last: Member)
    | ODone(plain: Plain)
    | OFailed
    | OThrown

  datatype TextParse =
    | TRoot(aims: seq<Script>)
    | TScript(aims: seq<Script>, ofScript: ScriptParse)
    | TArray(aims: seq<Script>, ofArray: ArrayParse)
    | TObject(aims: seq<Script>, ofObject: ObjectParse)
    | TDone(document: Document)
    | TFailed
    | TThrown

  // A frame that is neither done nor failed is in progress; writing to any other frame throws.
  predicate SProgress(p: ScriptParse) { !p.SDone? && !p.SFailed? && !p.SThrown? }
  predicate OProgress(p: ObjectParse) { !p.ODone? && !p.OFailed? && !p.OThrown? }
  predicate TProgress(p: TextParse) { !p.TDone? && !p.TFailed? && !p.TThrown? }

  // ---------------------------------------------------------------------------------------------
  // One token

  function StepScript(p: ScriptParse, t: Token): ScriptParse {
    match p
    case SElement =>
      if t.Name? then SAfterElement(t.name)
      else if t.TokenSeparator? then SExpectAttribute(None)
      else if t.EndScript? then SDone(Nothing)
      else SFailed
    case SAfterElement(name) =>
      if t.TokenSeparator? then SExpectAttribute(Some(name))
      else if t.EndScript? then SDone(Element(name))
      else if t.BeginParameter? then SAfterBegin(Method(name))
      else SFailed
    case SExpectAttribute(e) =>
      if t.Name? then SAfterAttribute(e, t.name) else SFailed
    case SAfterAttribute(e, a) =>
      if t.TokenSeparator? then SExpectMethod(e, a)
      else if t.BeginParameter? then SAfterBegin(OfElement(e, a))
      else if t.EndScript? then SDone(Attribute(e, a))
      else SFailed
    case SExpectMethod(e, a) =>
      if t.Name? then SExpectBegin(e, a, t.name) else SFailed
    case SExpectBegin(e, a, m) =>
      if t.BeginParameter? then SAfterBegin(OfAttribute(e, a, m)) else SFailed
    case SAfterBegin(target) =>
      if t.EndParameter? then SEndScript(target, None) else AfterParameter(target, BeginValue(t))
    case SParameter(target, value) => AfterParameter(target, StepValue(value, t))
    case SEndParameter(target, parameter) =>
      if t.EndParameter? then SEndScript(target, Some(parameter)) else SFailed
    case SEndScript(target, result) =>
      if t.EndScript? then SDone(Call(target, result)) else SFailed
    case SDone(_) => SThrown
    case SFailed => SThrown
    case SThrown => SThrown
  }

  function AfterParameter(target: Target, p: ValueParse): ScriptParse {
    match p
    case VDone(t) => SEndParameter(target, t)
    case VFailed => SFailed
    case VThrown => SThrown
    case _ => SParameter(target, p)
  }

  function BeginValue(t: Token): ValueParse {
    match t
    case BeginScript => VScript(SElement)
    case BeginArray => VArray(AFirst)
    case BeginObject => VObject(OName([], []))
    case NumberToken(n) => VDone(Plain(NumberT(n)))
    case StringToken(s) => VDone(Plain(StringT(s)))
    case BoolToken(b) => VDone(Plain(BoolT(b)))
    case NullToken => VDone(Plain(NullT))
    case _ => VFailed
  }

  function StepValue(p: ValueParse, t: Token): ValueParse {
    match p
    case VStart => BeginValue(t)
    case VScript(s) => AfterValueScript(StepScript(s, t))
    case VArray(a) => AfterValueArray(StepArray(a, t))
    case VObject(o) => AfterValueObject(StepObject(o, t))
    case VDone(_) => VThrown
    case VFailed => VThrown
    case VThrown => VThrown
  }

  function AfterValueScript(s: ScriptParse): ValueParse {
    match s
    case SDone(script) => VDone(Selected(script))
    case SFailed => VFailed
    case SThrown => VThrown
    case _ => VScript(s)
  }

  function AfterValueArray(a: ArrayParse): ValueParse {
    match a
    case ADone(items) => VDone(Plain(ArrayT(items)))
    case AFailed => VFailed
    case AThrown => VThrown
    case _ => VArray(a)
  }

  function AfterValueObject(o: ObjectParse): ValueParse {
    match o
    case ODone(plain) => VDone(Plain(plain))
    case OFailed => VFailed
    case OThrown => VThrown
    case _ => VObject(o)
  }

  function StepArray(p: ArrayParse, t: Token): ArrayParse {
    match p
    case AFirst =>
      if t.BeginScript? then AScript([], SElement)
      else if t.EndArray? then ADone([])
      else AfterElement([], BeginValue(t))
    case AScript(before, s) => AfterGovernor(before, StepScript(s, t))
    case AScripted(before, governor, body) => AfterBody(before, governor, StepValue(body, t))
    case AElement(before, element) => AfterElement(before, StepValue(element, t))
    case ASeparator(items) =>
      if t.EndArray? then ADone(items) else if t.ValueSeparator? then ANext(items) else AFailed
    case ANext(items) =>
      if t.BeginScript? then AScript(items, SElement) else AfterElement(items, BeginValue(t))
    case ADone(_) => AThrown
    case AFailed => AThrown
    case AThrown => AThrown
  }

  function AfterGovernor(before: seq<Item>, s: ScriptParse): ArrayParse {
    match s
    case SDone(script) => AScripted(before, script, VStart)
    case SFailed => AFailed
    case SThrown => AThrown
    case _ => AScript(before, s)
  }

  function AfterBody(before: seq<Item>, governor: Script, p: ValueParse): ArrayParse {
    match p
    case VDone(template) => ASeparator(before + [PerMatch(governor, template)])
    case VFailed => AFailed
    case VThrown => AThrown
    case _ => AScripted(before, governor, p)
  }

  // An element frame that was not begun by a script cannot turn out to be one; see `StepArray`.
  function AfterElement(before: seq<Item>, p: ValueParse): ArrayParse {
    match p
    case VDone(Plain(plain)) => ASeparator(before + [Once(plain)])
    case VDone(Selected(_)) => AFailed
    case VFailed => AFailed
    case VThrown => AThrown
    case _ => AElement(before, p)
  }

  function StepObject(p: ObjectParse, t: Token): ObjectParse {
    match p
    case OName(members, aims) =>
      if t.BeginScript? then OScript(members, aims, SElement)
      else if t.EndObject? && members == [] then ODone(EmptyObjectT(aims))
      else if t.StringToken? then OSeparator(members, aims, t.text)
      else OFailed
    case OScript(members, aims, s) => AfterAim(members, aims, StepScript(s, t))
    case OSeparator(members, aims, name) =>
      if t.NameSeparator? then OValue(members, aims, name, VStart) else OFailed
    case OValue(members, aims, name, value) => AfterMember(members, aims, name, StepValue(value, t))
    case OMemberSeparator(members, last) =>
      if t.EndObject? then ODone(ObjectT(members, last))
      else if t.ValueSeparator? then OName(members + [last], [])
      else OFailed
    case ODone(_) => OThrown
    case OFailed => OThrown
    case OThrown => OThrown
  }

  function AfterAim(members: seq<Member>, aims: seq<Script>, s: ScriptParse): ObjectParse {
    match s
    case SDone(script) => OName(members, aims + [script])
    case SFailed => OFailed
    case SThrown => OThrown
    case _ => OScript(members, aims, s)
  }

  function AfterMember(members: seq<Member>, aims: seq<Script>, name: string, p: ValueParse): ObjectParse {
    match p
    case VDone(body) => OMemberSeparator(members, Member(aims, name, body))
    case VFailed => OFailed
    case VThrown => OThrown
    case _ => OValue(members, aims, name, p)
  }

  function StepText(p: TextParse, t: Token): TextParse {
    match p
    case TRoot(aims) =>
      if t.BeginScript? then TScript(aims, SElement)
      else if t.BeginArray? then TArray(aims, AFirst)
      else if t.BeginObject? then TObject(aims, OName([], []))
      else TFailed
    case TScript(aims, s) => AfterRootScript(aims, StepScript(s, t))
    case TArray(aims, a) => AfterRootArray(aims, StepArray(a, t))
    case TObject(aims, o) => AfterRootObject(aims, StepObject(o, t))
    case TDone(_) => TThrown
    case TFailed => TThrown
    case TThrown => TThrown
  }

  function AfterRootScript(aims: seq<Script>, s: ScriptParse): TextParse {
    match s
    case SDone(script) => TRoot(aims + [script])
    case SFailed => TFailed
    case SThrown => TThrown
    case _ => TScript(aims, s)
  }

  function AfterRootArray(aims: seq<Script>, a: ArrayParse): TextParse {
    match a
    case ADone(items) => TDone(Document(aims, ArrayT(items)))
    case AFailed => TFailed
    case AThrown => TThrown
    case _ => TArray(aims, a)
  }

  function AfterRootObject(aims: seq<Script>, o: ObjectParse): TextParse {
    match o
    case ODone(plain) => TDone(Document(aims, plain))
    case OFailed => TFailed
    case OThrown => TThrown
    case _ => TObject(aims, o)
  }

  /** A machine fed with tokens. */
  function Feed<P>(step: (P, Token) -> P, p: P, ts: seq<Token>): P
    decreases ts
  {
    if ts == [] then p else Feed(step, step(p, ts[0]), ts[1..])
  }

  // ---------------------------------------------------------------------------------------------
  // The tokens of a template

  function TargetTokens(t: Target): seq<Token> {
    match t
    case Method(m) => [Name(m), BeginParameter]
    case OfElement(e, m) => ElementTokens(e) + [Name(m), BeginParameter]
    case OfAttribute(e, a, m) => ElementTokens(e) + [Name(a), TokenSeparator, Name(m), BeginParameter]
  }

  function ElementTokens(e: Option<string>): seq<Token> {
    if e.Some? then [Name(e.value), TokenSeparator] else [TokenSeparator]
  }

  /** A script without its opening token, which the enclosing frame reads. */
  function ScriptTokens(s: Script): seq<Token> {
    match s
    case Nothing => [EndScript]
    case Element(name) => [Name(name), EndScript]
    case Attribute(e, a) => ElementTokens(e) + [Name(a), EndScript]
    case Call(target, None) => TargetTokens(target) + [EndParameter, EndScript]
    case Call(target, Some(p)) => TargetTokens(target) + TemplateTokens(p) + [EndParameter, EndScript]
  }

  function AimTokens(aims: seq<Script>): seq<Token> {
    if aims == [] then [] else AimTokens(aims[..|aims| - 1]) + [BeginScript] + ScriptTokens(aims[|aims| - 1])
  }

  function TemplateTokens(t: Template): seq<Token> {
    match t
    case Selected(s) => [BeginScript] + ScriptTokens(s)
    case Plain(p) => PlainTokens(p)
  }

  function PlainTokens(p: Plain): seq<Token> {
    match p
    case NullT => [NullToken]
    case BoolT(b) => [BoolToken(b)]
    case NumberT(n) => [NumberToken(n)]
    case StringT(s) => [StringToken(s)]
    case ArrayT(items) => [BeginArray] + ItemsTokens(items) + [EndArray]
    case EmptyObjectT(aims) => [BeginObject] + AimTokens(aims) + [EndObject]
    case ObjectT(members, last) => [BeginObject] + MembersTokens(members) + MemberTokens(last) + [EndObject]
  }

  function ItemTokens(i: Item): seq<Token> {
    match i
    case Once(p) => PlainTokens(p)
    case PerMatch(s, body) => [BeginScript] + ScriptTokens(s) + TemplateTokens(body)
  }

  /** Items with separators between them. */
  function ItemsTokens(items: seq<Item>): seq<Token> {
    if items == [] then []
    else SeparatedItems(items[..|items| - 1]) + ItemTokens(items[|items| - 1])
  }

  /** Items with a separator after each. */
  function SeparatedItems(items: seq<Item>): seq<Token> {
    if items == [] then []
    else SeparatedItems(items[..|items| - 1]) + ItemTokens(items[|items| - 1]) + [ValueSeparator]
  }

  function MemberTokens(m: Member): seq<Token> {
    AimTokens(m.aims) + [StringToken(m.name), NameSeparator] + TemplateTokens(m.body)
  }

  function MembersTokens(members: seq<Member>): seq<Token> {
    if members == [] then []
    else MembersTokens(members[..|members| - 1]) + MemberTokens(members[|members| - 1]) + [ValueSeparator]
  }

  function DocumentTokens(d: Document): seq<Token> {
    AimTokens(d.aims) + PlainTokens(d.root)
  }

  // ---------------------------------------------------------------------------------------------
  // The tokens a partial parse has read (none for a parse that failed)

  function UnparseScript(p: ScriptParse): seq<Token> {
    match p
    case SElement => []
    case SAfterElement(name) => [Name(name)]
    case SExpectAttribute(e) => ElementTokens(e)
    case SAfterAttribute(e, a) => ElementTokens(e) + [Name(a)]
    case SExpectMethod(e, a) => ElementTokens(e) + [Name(a), TokenSeparator]
    case SExpectBegin(e, a, m) => ElementTokens(e) + [Name(a), TokenSeparator, Name(m)]
    case SAfterBegin(target) => TargetTokens(target)
    case SParameter(target, value) => TargetTokens(target) + UnparseValue(value)
    case SEndParameter(target, parameter) => TargetTokens(target) + TemplateTokens(parameter)
    case SEndScript(target, None) => TargetTokens(target) + [EndParameter]
    case SEndScript(target, Some(p)) => TargetTokens(target) + TemplateTokens(p) + [EndParameter]
    case SDone(script) => ScriptTokens(script)
    case SFailed => []
    case SThrown => []
  }

  function UnparseValue(p: ValueParse): seq<Token> {
    match p
    case VStart => []
    case VScript(s) => [BeginScript] + UnparseScript(s)
    case VArray(a) => [BeginArray] + UnparseArray(a)
    case VObject(o) => [BeginObject] + UnparseObject(o)
    case VDone(t) => TemplateTokens(t)
    case VFailed => []
    case VThrown => []
  }

  function UnparseArray(p: ArrayParse): seq<Token> {
    match p
    case AFirst => []
    case AScript(before, s) => SeparatedItems(before) + [BeginScript] + UnparseScript(s)
    case AScripted(before, governor, body) =>
      SeparatedItems(before) + [BeginScript] + ScriptTokens(governor) + UnparseValue(body)
    case AElement(before, element) => SeparatedItems(before) + UnparseValue(element)
    case ASeparator(items) => ItemsTokens(items)
    case ANext(items) => SeparatedItems(items)
    case ADone(items) => ItemsTokens(items) + [EndArray]
    case AFailed => []
    case AThrown => []
  }

  function UnparseObject(p: ObjectParse): seq<Token> {
    match p
    case OName(members, aims) => MembersTokens(members) + AimTokens(aims)
    case OScript(members, aims, s) => MembersTokens(members) + AimTokens(aims) + [BeginScript] + UnparseScript(s)
    case OSeparator(members, aims, name) => MembersTokens(members) + AimTokens(aims) + [StringToken(name)]
    case OValue(members, aims, name, value) =>
      MembersTokens(members) + AimTokens(aims) + [StringToken(name), NameSeparator] + UnparseValue(value)
    case OMemberSeparator(members, last) => MembersTokens(members) + MemberTokens(last)
    case ODone(plain) => if plain.EmptyObjectT? || plain.ObjectT? then PlainTokens(plain)[1..] else []
    case OFailed => []
    case OThrown => []
  }

  function UnparseText(p: TextParse): seq<Token> {
    match p
    case TRoot(aims) => AimTokens(aims)
    case TScript(aims, s) => AimTokens(aims) + [BeginScript] + UnparseScript(s)
    case TArray(aims, a) => AimTokens(aims) + [BeginArray] + UnparseArray(a)
    case TObject(aims, o) => AimTokens(aims) + [BeginObject] + UnparseObject(o)
    case TDone(d) => DocumentTokens(d)
    case TFailed => []
    case TThrown => []
  }
}
