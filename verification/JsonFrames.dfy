/**
 The frames of the JSON parser, as objects that are written one token at a time.

 Each frame holds at most one sub-frame and hands its tokens down.  The ghost field `parse` is the
 frame's partial parse; `Valid` says that the concrete fields are what that parse evaluates to over
 the frame's domain.  `Write` is proved to take `StepScript`, `StepValue`, ... on the parse, which
 do not mention the domain: how far a frame has come depends on its tokens alone.

 A write to a frame that is not in progress would throw; every such call is ruled out by a
 precondition, including those of the replay loop.
 */
module JsonFrames {
  import opened Wrappers
  import opened JsonTemplate
  import opened JsonEval
  import opened JsonGrammar
  import opened JsonMeaning

  datatype ScriptState =
    | ExpectingElement | AfterElementName | ExpectingAttribute | AfterAttribute | ExpectingMethod
    | ExpectingBeginParameter | AfterBeginParameter | ExpectingParameter | ExpectingEndParameter
    | ExpectingEndScript | ScriptDone | ParseError

  datatype ValueState =
    | ValueStart | ScriptPending | ArrayPending | ObjectPending | ValueDone
    | ScriptFrameFailed | StartError | ArrayFrameFailed | ObjectFrameFailed

  datatype ArrayState =
    | ExpectingFirstElement | GovernorPending | ScriptExecution | ElementPending | ExpectingValueSeparator
    | ExpectingNextElement | ArrayDone | GovernorFailed | ElementFrameFailed | ExpectingValueSeparatorError

  datatype ObjectState =
    | ExpectingFirstName | AimPending | ExpectingNextName | ExpectingSeparator | MemberValuePending
    | ExpectingMemberSeparator | ObjectDone | AimFailed | ExpectingFirstNameError | ExpectingSeparatorError
    | MemberValueFailed | ExpectingMemberSeparatorError | ExpectingNextNameError

  class ScriptFrame<Node(!new)> {
    const env: Env<Node>
    const domain: Node
    var state: ScriptState
    var elementName: Option<string>
    var attributeName: Option<string>
    var methodName: Option<string>
    var parameterValue: Option<Value>
    var parameterFrame: ValueFrame?<Node>
    ghost var parse: ScriptParse
    ghost var Repr: set<object>

    ghost predicate Valid()
      reads this, Repr
      ensures Valid() ==> this in Repr && (InProgress() <==> LiveScript(parse)) && (Failed() <==> parse == SFailed)
      ensures Valid() ==> env.Finite() && LiveOrOver() && (parse.SDone? ==> Asked() == ScriptQuery(env, parse.script, domain))
      decreases Repr, 1
    {
      && this in Repr && env.Finite() && LiveOrOver()
      && match parse
         case SElement => state == ExpectingElement && Asked() == Query(None, None, None, None)
         case SAfterElement(e) => state == AfterElementName && Asked() == Query(Some(e), None, None, None)
         case SExpectAttribute(e) => state == ExpectingAttribute && Asked() == Query(e, None, None, None)
         case SAfterAttribute(e, a) => state == AfterAttribute && Asked() == Query(e, Some(a), None, None)
         case SExpectMethod(e, a) => state == ExpectingMethod && Asked() == Query(e, Some(a), None, None)
         case SExpectBegin(e, a, m) => state == ExpectingBeginParameter && Asked() == Query(e, Some(a), Some(m), None)
         case SAfterBegin(target) => state == AfterBeginParameter && Asked() == TargetQuery(target, None) && HasParameter(VStart)
         case SParameter(target, v) => state == ExpectingParameter && Asked() == TargetQuery(target, None) && HasParameter(v)
         case SEndParameter(target, p) => state == ExpectingEndParameter && Asked() == TargetQuery(target, Some(Eval(env, p, domain)))
         case SEndScript(target, r) => state == ExpectingEndScript && Asked() == ScriptQuery(env, Call(target, r), domain)
         case SDone(script) => state == ScriptDone && Asked() == ScriptQuery(env, script, domain)
         case SFailed => state == ParseError
         case SThrown => false
    }

    ghost predicate LiveOrOver()
      reads this
    {
      LiveScript(parse) || parse.SDone? || parse.SFailed?
    }

    ghost predicate HasParameter(v: ValueParse)
      requires this in Repr
      reads this, Repr
      decreases Repr, 0
    {
      && parameterFrame != null && parameterFrame in Repr && parameterFrame.Repr <= Repr && this !in parameterFrame.Repr
      && parameterFrame.Valid()
      && parameterFrame.parse == v && parameterFrame.env == env && parameterFrame.domain == domain
    }

    function Asked(): Query
      reads this
    {
      Query(elementName, attributeName, methodName, parameterValue)
    }

    predicate InProgress()
      reads this
    {
      state != ScriptDone && state != ParseError
    }

    predicate Failed()
      reads this
    {
      state == ParseError
    }

    constructor (env: Env<Node>, domain: Node)
      requires env.Finite()
      ensures Valid() && fresh(Repr) && parse == SElement && this.env == env && this.domain == domain
    {
      this.env, this.domain := env, domain;
      state := ExpectingElement;
      elementName, attributeName, methodName, parameterValue, parameterFrame := None, None, None, None, null;
      parse, Repr := SElement, {this};
    }

    method Write(token: Token)
      requires Valid() && InProgress()
      modifies Repr
      ensures Valid() && fresh(Repr - old(Repr))
      ensures parse == StepScript(old(parse), token)
      decreases |UnparseScript(parse)|, 2
    {
      if state == AfterBeginParameter && token.EndParameter? {
        state := ExpectingEndScript;
        parse := StepScript(parse, token);
      } else if state == AfterBeginParameter || state == ExpectingParameter {
        state := ExpectingParameter;
        WriteParameter(token);
      } else if state == ExpectingElement || state == AfterElementName {
        WriteElementName(token);
      } else if state == ExpectingAttribute || state == AfterAttribute {
        WriteAttributeName(token);
      } else if state == ExpectingMethod || state == ExpectingBeginParameter {
        WriteMethodName(token);
      } else {
        WriteEnd(token);
      }
    }

    /** Up to the first name, which a parameter turns into the name of a method. */
    method WriteElementName(token: Token)
      requires Valid() && (state == ExpectingElement || state == AfterElementName)
      modifies Repr
      ensures Valid() && fresh(Repr - old(Repr))
      ensures parse == StepScript(old(parse), token)
    {
      var next := ParseError;
      if state == ExpectingElement {
        if token.Name? {
          elementName := Some(token.name);
          next := AfterElementName;
        } else if token.TokenSeparator? {
          next := ExpectingAttribute;
        } else if token.EndScript? {
          next := ScriptDone;
        }
      } else if token.TokenSeparator? {
        next := ExpectingAttribute;
      } else if token.EndScript? {
        next := ScriptDone;
      } else if token.BeginParameter? {
        methodName, elementName := elementName, None;
        BeginParameterFrame();
        next := AfterBeginParameter;
      }
      state := next;
      parse := StepScript(parse, token);
    }

    /** The name after a separator, which a parameter also turns into the name of a method. */
    method WriteAttributeName(token: Token)
      requires Valid() && (state == ExpectingAttribute || state == AfterAttribute)
      modifies Repr
      ensures Valid() && fresh(Repr - old(Repr))
      ensures parse == StepScript(old(parse), token)
    {
      var next := ParseError;
      if state == ExpectingAttribute {
        if token.Name? {
          attributeName := Some(token.name);
          next := AfterAttribute;
        }
      } else if token.TokenSeparator? {
        next := ExpectingMethod;
      } else if token.BeginParameter? {
        methodName, attributeName := attributeName, None;
        BeginParameterFrame();
        next := AfterBeginParameter;
      } else if token.EndScript? {
        next := ScriptDone;
      }
      state := next;
      parse := StepScript(parse, token);
    }

    /** The name after two separators. */
    method WriteMethodName(token: Token)
      requires Valid() && (state == ExpectingMethod || state == ExpectingBeginParameter)
      modifies Repr
      ensures Valid() && fresh(Repr - old(Repr))
      ensures parse == StepScript(old(parse), token)
    {
      var next := ParseError;
      if state == ExpectingMethod {
        if token.Name? {
          methodName := Some(token.name);
          next := ExpectingBeginParameter;
        }
      } else if token.BeginParameter? {
        BeginParameterFrame();
        next := AfterBeginParameter;
      }
      state := next;
      parse := StepScript(parse, token);
    }

    /** After the parameter. */
    method WriteEnd(token: Token)
      requires Valid() && (state == ExpectingEndParameter || state == ExpectingEndScript)
      modifies Repr
      ensures Valid() && fresh(Repr - old(Repr))
      ensures parse == StepScript(old(parse), token)
    {
      var next := ParseError;
      if state == ExpectingEndParameter && token.EndParameter? {
        next := ExpectingEndScript;
      } else if state == ExpectingEndScript && token.EndScript? {
        next := ScriptDone;
      }
      state := next;
      parse := StepScript(parse, token);
    }

    method BeginParameterFrame()
      requires this in Repr && env.Finite()
      modifies this`parameterFrame, this`Repr
      ensures this in Repr && HasParameter(VStart) && fresh(Repr - old(Repr))
    {
      parameterFrame := new ValueFrame(env, domain);
      Repr := Repr + parameterFrame.Repr;
    }

    method WriteParameter(token: Token)
      requires this in Repr && env.Finite() && state == ExpectingParameter
      requires (parse.SAfterBegin? && !token.EndParameter? && HasParameter(VStart)) || (parse.SParameter? && HasParameter(parse.value))
      requires Asked() == TargetQuery(parse.target, None)
      requires LiveScript(parse)
      modifies Repr
      ensures Valid() && fresh(Repr - old(Repr))
      ensures parse == StepScript(old(parse), token)
      decreases |UnparseScript(parse)|, 1
    {
      hide *;
      ghost var target := parse.target;
      AskedIs();
      ParameterIs(if parse.SAfterBegin? then VStart else parse.value);
      ParameterInScript(parse, parameterFrame.parse, token);
      parse := StepScript(parse, token);
      parameterFrame.Write(token);
      Repr := Repr + parameterFrame.Repr;
      if parameterFrame.InProgress() {
        ParameterIs(parameterFrame.parse);
        AskedIs();
        ParameterHeld();
        return;
      }
      if parameterFrame.Failed() {
        state := ParseError;
        Stopped();
        return;
      }
      parameterValue := Some(parameterFrame.value);
      state := ExpectingEndParameter;
      TargetQueryIs(target, parameterValue);
      AskedIs();
      ParameterRead();
    }

    lemma AskedIs()
      ensures Asked() == Query(elementName, attributeName, methodName, parameterValue)
    {
    }

    lemma ParameterIs(v: ValueParse)
      requires this in Repr
      ensures HasParameter(v) <==>
                && parameterFrame != null && parameterFrame in Repr && parameterFrame.Repr <= Repr && this !in parameterFrame.Repr
                && parameterFrame.Valid()
                && parameterFrame.parse == v && parameterFrame.env == env && parameterFrame.domain == domain
    {
    }

    lemma ParameterHeld()
      requires this in Repr && env.Finite() && state == ExpectingParameter && parse.SParameter? && LiveValue(parse.value)
      requires Asked() == TargetQuery(parse.target, None) && HasParameter(parse.value)
      ensures Valid()
    {
    }

    lemma ParameterRead()
      requires this in Repr && env.Finite() && state == ExpectingEndParameter && parse.SEndParameter?
      requires Asked() == TargetQuery(parse.target, Some(Eval(env, parse.parameter, domain)))
      ensures Valid()
    {
    }

    lemma Stopped()
      requires this in Repr && env.Finite() && state == ParseError && parse == SFailed
      ensures Valid()
    {
    }
  }

  class ValueFrame<Node(!new)> {
    const env: Env<Node>
    const domain: Node
    var state: ValueState
    var value: Value
    var scriptFrame: ScriptFrame?<Node>
    var arrayFrame: ArrayFrame?<Node>
    var objectFrame: ObjectFrame?<Node>
    ghost var parse: ValueParse
    ghost var Repr: set<object>

    ghost predicate Valid()
      reads this, Repr
      ensures Valid() ==> this in Repr && (InProgress() <==> LiveValue(parse)) && (Failed() <==> parse == VFailed)
      ensures Valid() ==> env.Finite() && LiveOrOver() && (parse.VDone? ==> value == Eval(env, parse.template, domain))
      decreases Repr, 1
    {
      && this in Repr && env.Finite() && LiveOrOver()
      && match parse
         case VStart => state == ValueStart
         case VScript(s) => state == ScriptPending && HasScript(s)
         case VArray(a) => state == ArrayPending && HasArray(a)
         case VObject(o) => state == ObjectPending && HasObject(o)
         case VDone(t) => state == ValueDone && value == Eval(env, t, domain)
         case VFailed => Failed()
         case VThrown => false
    }

    ghost predicate LiveOrOver()
      reads this
    {
      LiveValue(parse) || parse.VDone? || parse.VFailed?
    }

    ghost predicate HasScript(s: ScriptParse)
      requires this in Repr
      reads this, Repr
      decreases Repr, 0
    {
      && scriptFrame != null && scriptFrame in Repr && scriptFrame.Repr <= Repr && this !in scriptFrame.Repr
      && scriptFrame.Valid() && scriptFrame.parse == s && scriptFrame.env == env && scriptFrame.domain == domain
    }

    ghost predicate HasArray(a: ArrayParse)
      requires this in Repr
      reads this, Repr
      decreases Repr, 0
    {
      && arrayFrame != null && arrayFrame in Repr && arrayFrame.Repr <= Repr && this !in arrayFrame.Repr
      && arrayFrame.Valid() && arrayFrame.parse == a && arrayFrame.env == env && arrayFrame.domain == domain
    }

    ghost predicate HasObject(o: ObjectParse)
      requires this in Repr
      reads this, Repr
      decreases Repr, 0
    {
      && objectFrame != null && objectFrame in Repr && objectFrame.Repr <= Repr && this !in objectFrame.Repr
      && objectFrame.Valid() && objectFrame.parse == o && objectFrame.env == env && objectFrame.domain == domain
    }

    predicate InProgress()
      reads this
    {
      state == ValueStart || state == ScriptPending || state == ArrayPending || state == ObjectPending
    }

    predicate Failed()
      reads this
    {
      state == ScriptFrameFailed || state == StartError || state == ArrayFrameFailed || state == ObjectFrameFailed
    }

    constructor (env: Env<Node>, domain: Node)
      requires env.Finite()
      ensures Valid() && fresh(Repr) && parse == VStart && this.env == env && this.domain == domain
    {
      this.env, this.domain := env, domain;
      state, value, scriptFrame, arrayFrame, objectFrame := ValueStart, Null, null, null, null;
      parse, Repr := VStart, {this};
    }

    method Write(token: Token)
      requires Valid() && InProgress()
      modifies Repr
      ensures Valid() && fresh(Repr - old(Repr))
      ensures parse == StepValue(old(parse), token)
      decreases |UnparseValue(parse)|, 1
    {
      match state {
        case ValueStart => Start(token);
        case ScriptPending => WriteScript(token);
        case ArrayPending => WriteArray(token);
        case ObjectPending => WriteObject(token);
      }
    }

    method Start(token: Token)
      requires Valid() && state == ValueStart
      modifies Repr
      ensures Valid() && fresh(Repr - old(Repr))
      ensures parse == StepValue(old(parse), token)
    {
      hide *;
      Pending();
      BeginStep(token);
      EvalOfAtom(env, domain);
      parse := BeginValue(token);
      match token {
        case BeginScript =>
          scriptFrame := new ScriptFrame(env, domain);
          Repr := Repr + scriptFrame.Repr;
          state := ScriptPending;
          ScriptHeld();
        case BeginArray =>
          arrayFrame := new ArrayFrame(env, domain);
          Repr := Repr + arrayFrame.Repr;
          state := ArrayPending;
          ArrayHeld();
        case BeginObject =>
          objectFrame := new ObjectFrame(env, domain);
          Repr := Repr + objectFrame.Repr;
          state := ObjectPending;
          ObjectHeld();
        case NumberToken(n) => value := Number(n); state := ValueDone; Finished();
        case StringToken(s) => value := String(s); state := ValueDone; Finished();
        case BoolToken(b) => value := Bool(b); state := ValueDone; Finished();
        case NullToken => value := Null; state := ValueDone; Finished();
        case _ => state := StartError; Stopped();
      }
    }

    method WriteScript(token: Token)
      requires Valid() && state == ScriptPending
      modifies Repr
      ensures Valid() && fresh(Repr - old(Repr))
      ensures parse == StepValue(old(parse), token)
      decreases |UnparseValue(parse)|, 0
    {
      hide *;
      Pending();
      ScriptInValue(scriptFrame.parse, token);
      parse := StepValue(parse, token);
      scriptFrame.Write(token);
      Repr := Repr + scriptFrame.Repr;
      if scriptFrame.InProgress() {
        ScriptHeld();
        return;
      }
      if scriptFrame.Failed() {
        state := ScriptFrameFailed;
        Stopped();
        return;
      }
      var selected := env.text(scriptFrame.Asked(), domain);
      if selected.Some? {
        value := String(selected.value);
      } else {
        value := Null;
      }
      state := ValueDone;
      SelectionIs(env, scriptFrame.parse.script, domain, value);
      Finished();
    }

    method WriteArray(token: Token)
      requires Valid() && state == ArrayPending
      modifies Repr
      ensures Valid() && fresh(Repr - old(Repr))
      ensures parse == StepValue(old(parse), token)
      decreases |UnparseValue(parse)|, 0
    {
      hide *;
      Pending();
      ArrayInValue(arrayFrame.parse, token);
      parse := StepValue(parse, token);
      arrayFrame.Write(token);
      Repr := Repr + arrayFrame.Repr;
      if arrayFrame.InProgress() {
        ArrayHeld();
        return;
      }
      if arrayFrame.Failed() {
        state := ArrayFrameFailed;
        Stopped();
        return;
      }
      value := Array(arrayFrame.elements);
      state := ValueDone;
      EvalOfPlain(env, ArrayT(arrayFrame.parse.items), domain);
      Finished();
    }

    method WriteObject(token: Token)
      requires Valid() && state == ObjectPending
      modifies Repr
      ensures Valid() && fresh(Repr - old(Repr))
      ensures parse == StepValue(old(parse), token)
      decreases |UnparseValue(parse)|, 0
    {
      hide *;
      Pending();
      ObjectInValue(objectFrame.parse, token);
      parse := StepValue(parse, token);
      objectFrame.Write(token);
      Repr := Repr + objectFrame.Repr;
      if objectFrame.InProgress() {
        ObjectHeld();
        return;
      }
      if objectFrame.Failed() {
        state := ObjectFrameFailed;
        Stopped();
        return;
      }
      value := Object(objectFrame.members);
      state := ValueDone;
      EvalOfPlain(env, objectFrame.parse.plain, domain);
      Finished();
    }

    // What a pending state says, and what makes the frame valid again.

    lemma Pending()
      requires Valid()
      ensures state == ValueStart ==> parse == VStart
      ensures state == ScriptPending ==>
                && scriptFrame != null && parse == VScript(scriptFrame.parse) && LiveScript(scriptFrame.parse) && scriptFrame in Repr
                && scriptFrame.Repr <= Repr && this !in scriptFrame.Repr && scriptFrame.Valid() && scriptFrame.env == env && scriptFrame.domain == domain
      ensures state == ArrayPending ==>
                && arrayFrame != null && parse == VArray(arrayFrame.parse) && LiveArray(arrayFrame.parse) && arrayFrame in Repr
                && arrayFrame.Repr <= Repr && this !in arrayFrame.Repr && arrayFrame.Valid() && arrayFrame.env == env && arrayFrame.domain == domain
      ensures state == ObjectPending ==>
                && objectFrame != null && parse == VObject(objectFrame.parse) && LiveObject(objectFrame.parse) && objectFrame in Repr
                && objectFrame.Repr <= Repr && this !in objectFrame.Repr && objectFrame.Valid() && objectFrame.env == env && objectFrame.domain == domain
    {
    }

    lemma ScriptHeld()
      requires this in Repr && env.Finite() && state == ScriptPending && scriptFrame != null && parse == VScript(scriptFrame.parse)
      requires LiveScript(scriptFrame.parse) && scriptFrame in Repr && scriptFrame.Repr <= Repr && this !in scriptFrame.Repr
      requires scriptFrame.Valid() && scriptFrame.env == env && scriptFrame.domain == domain
      ensures Valid()
    {
    }

    lemma ArrayHeld()
      requires this in Repr && env.Finite() && state == ArrayPending && arrayFrame != null && parse == VArray(arrayFrame.parse)
      requires LiveArray(arrayFrame.parse) && arrayFrame in Repr && arrayFrame.Repr <= Repr && this !in arrayFrame.Repr
      requires arrayFrame.Valid() && arrayFrame.env == env && arrayFrame.domain == domain
      ensures Valid()
    {
    }

    lemma ObjectHeld()
      requires this in Repr && env.Finite() && state == ObjectPending && objectFrame != null && parse == VObject(objectFrame.parse)
      requires LiveObject(objectFrame.parse) && objectFrame in Repr && objectFrame.Repr <= Repr && this !in objectFrame.Repr
      requires objectFrame.Valid() && objectFrame.env == env && objectFrame.domain == domain
      ensures Valid()
    {
    }

    lemma Finished()
      requires this in Repr && env.Finite() && state == ValueDone && parse.VDone? && value == Eval(env, parse.template, domain)
      ensures Valid()
    {
    }

    lemma Stopped()
      requires this in Repr && env.Finite() && parse == VFailed
      requires state == ScriptFrameFailed || state == StartError || state == ArrayFrameFailed || state == ObjectFrameFailed
      ensures Valid()
    {
    }
  }

  class ArrayFrame<Node(!new)> {
    const env: Env<Node>
    const domain: Node
    var state: ArrayState
    var elements: seq<Value>
    var script: Query
    var elementDomain: Node
    var startFrom: Option<Node>
    var scriptedTokens: Option<seq<Token>>
    var scriptFrame: ScriptFrame?<Node>
    var elementFrame: ValueFrame?<Node>
    ghost var parse: ArrayParse
    ghost var Repr: set<object>

    ghost predicate Valid()
      reads this, Repr
      ensures Valid() ==> this in Repr && (InProgress() <==> LiveArray(parse)) && (Failed() <==> parse == AFailed)
      ensures Valid() ==> env.Finite() && LiveOrOver() && (parse.ADone? ==> elements == EvalItems(env, parse.items, domain))
      decreases Repr, 1
    {
      && this in Repr && env.Finite() && LiveOrOver()
      && (!parse.AScripted? && !parse.AFailed? ==> Idle())
      && match parse
         case AFirst => state == ExpectingFirstElement && elements == []
         case AScript(before, s) => state == GovernorPending && elements == EvalItems(env, before, domain) && HasScript(s)
         case AScripted(before, governor, body) => Executing(before, governor, UnparseValue(body)) && HasElement(body)
         case AElement(before, element) => state == ElementPending && elements == EvalItems(env, before, domain) && HasElement(element)
         case ASeparator(items) => state == ExpectingValueSeparator && elements == EvalItems(env, items, domain)
         case ANext(items) => state == ExpectingNextElement && elements == EvalItems(env, items, domain)
         case ADone(items) => state == ArrayDone && elements == EvalItems(env, items, domain)
         case AFailed => Failed()
         case AThrown => false
    }

    ghost predicate LiveOrOver()
      reads this
    {
      LiveArray(parse) || parse.ADone? || parse.AFailed?
    }

    // Outside a scripted element nothing is recorded and plain elements see the frame's own domain.
    ghost predicate Idle()
      reads this
    {
      elementDomain == domain && startFrom == None && scriptedTokens == None
    }

    // On a first match the element sees the match and its tokens are recorded, all of them.
    ghost predicate Executing(before: seq<Item>, governor: Script, recorded: seq<Token>)
      requires env.Finite()
      reads this
    {
      && state == ScriptExecution && elements == EvalItems(env, before, domain)
      && script == ScriptQuery(env, governor, domain)
      && match env.find(script, domain, None)
         case None => Idle()
         case Some(n) => elementDomain == n && startFrom == Some(n) && scriptedTokens == Some(recorded)
    }

    ghost predicate HasScript(s: ScriptParse)
      requires this in Repr
      reads this, Repr
      decreases Repr, 0
    {
      && scriptFrame != null && scriptFrame in Repr && scriptFrame.Repr <= Repr && this !in scriptFrame.Repr
      && scriptFrame.Valid() && scriptFrame.parse == s && scriptFrame.env == env && scriptFrame.domain == domain
    }

    ghost predicate HasElement(v: ValueParse)
      requires this in Repr
      reads this, Repr
      decreases Repr, 0
    {
      && elementFrame != null && elementFrame in Repr && elementFrame.Repr <= Repr && this !in elementFrame.Repr
      && elementFrame.Valid() && elementFrame.parse == v && elementFrame.env == env && elementFrame.domain == elementDomain
    }

    predicate InProgress()
      reads this
    {
      || state == ExpectingFirstElement || state == GovernorPending || state == ScriptExecution
      || state == ElementPending || state == ExpectingValueSeparator || state == ExpectingNextElement
    }

    predicate Failed()
      reads this
    {
      state == GovernorFailed || state == ElementFrameFailed || state == ExpectingValueSeparatorError
    }

    constructor (env: Env<Node>, domain: Node)
      requires env.Finite()
      ensures Valid() && fresh(Repr) && parse == AFirst && this.env == env && this.domain == domain
    {
      this.env, this.domain, elementDomain := env, domain, domain;
      state, elements, script, startFrom, scriptedTokens := ExpectingFirstElement, [], Query(None, None, None, None), None, None;
      scriptFrame, elementFrame := null, null;
      parse, Repr := AFirst, {this};
    }

    method FindNextScriptElement() returns (success: bool)
      modifies this`startFrom, this`elementDomain
      ensures success <==> env.find(script, domain, old(startFrom)).Some?
      ensures startFrom == env.find(script, domain, old(startFrom))
      ensures elementDomain == if success then startFrom.value else domain
    {
      var scriptElement := env.find(script, domain, startFrom);
      if scriptElement.None? {
        startFrom := None;
        elementDomain := domain;
        return false;
      }
      startFrom := scriptElement;
      elementDomain := scriptElement.value;
      return true;
    }

    method Write(token: Token)
      requires Valid() && InProgress()
      modifies Repr
      ensures Valid() && fresh(Repr - old(Repr))
      ensures parse == StepArray(old(parse), token)
      decreases |UnparseArray(parse)|, 4
    {
      if scriptedTokens.Some? {
        scriptedTokens := Some(scriptedTokens.value + [token]);
      }
      WriteUnobserved(token);
    }

    method WriteUnobserved(token: Token)
      requires InProgress() && this in Repr && env.Finite() && LiveOrOver()
      requires if parse.AScripted?
               then Executing(parse.before, parse.governor, UnparseValue(parse.body) + [token]) && HasElement(parse.body)
               else Valid()
      modifies Repr
      ensures Valid() && fresh(Repr - old(Repr))
      ensures parse == StepArray(old(parse), token)
      decreases |UnparseArray(parse)|, 3
    {
      hide *;
      Pending(token);
      IdleIs();
      ArrayStep(parse, token);
      match state {
        case ExpectingFirstElement =>
          if token.BeginScript? {
            BeginGovernor([]);
          } else if token.EndArray? {
            state := ArrayDone;
            parse := ADone([]);
            Between();
          } else {
            elementFrame := new ValueFrame(env, elementDomain);
            Repr := Repr + elementFrame.Repr;
            state := ElementPending;
            IdleIs();
            ElementIs(VStart);
            WriteElement([], token);
          }
        case GovernorPending => WriteGovernor(token);
        case ScriptExecution => WriteBody(token);
        case ElementPending => WriteElement(parse.before, token);
        case ExpectingValueSeparator =>
          state := if token.EndArray? then ArrayDone else if token.ValueSeparator? then ExpectingNextElement else ExpectingValueSeparatorError;
          parse := StepArray(parse, token);
          Between();
        case ExpectingNextElement =>
          if token.BeginScript? {
            BeginGovernor(parse.items);
          } else {
            elementFrame := new ValueFrame(env, elementDomain);
            Repr := Repr + elementFrame.Repr;
            state := ElementPending;
            IdleIs();
            ElementIs(VStart);
            WriteElement(parse.items, token);
          }
      }
    }

    method BeginGovernor(ghost before: seq<Item>)
      requires this in Repr && env.Finite() && Idle() && elements == EvalItems(env, before, domain)
      modifies Repr
      ensures Valid() && fresh(Repr - old(Repr))
      ensures parse == AScript(before, SElement)
    {
      hide *;
      IdleIs();
      ScriptBegins();
      scriptFrame := new ScriptFrame(env, domain);
      Repr := Repr + scriptFrame.Repr;
      state := GovernorPending;
      parse := AScript(before, SElement);
      IdleIs();
      GovernorHeld();
    }

    method WriteGovernor(token: Token)
      requires Valid() && state == GovernorPending
      modifies Repr
      ensures Valid() && fresh(Repr - old(Repr))
      ensures parse == StepArray(old(parse), token)
      decreases |UnparseArray(parse)|, 2
    {
      hide *;
      Governing();
      IdleIs();
      ghost var before := parse.before;
      GovernorInArray(before, scriptFrame.parse, token);
      parse := StepArray(parse, token);
      scriptFrame.Write(token);
      Repr := Repr + scriptFrame.Repr;
      IdleIs();
      if scriptFrame.InProgress() {
        GovernorHeld();
        return;
      }
      if scriptFrame.Failed() {
        state := GovernorFailed;
        Stopped();
        return;
      }
      BeginExecution(before, scriptFrame.Asked(), scriptFrame.parse.script);
    }

    method BeginExecution(ghost before: seq<Item>, query: Query, ghost governor: Script)
      requires this in Repr && env.Finite() && Idle() && elements == EvalItems(env, before, domain)
      requires query == ScriptQuery(env, governor, domain)
      modifies this
      ensures Valid() && fresh(Repr - old(Repr))
      ensures parse == AScripted(before, governor, VStart)
    {
      hide *;
      IdleIs();
      script := query;
      var success := FindNextScriptElement();
      if success {
        scriptedTokens := Some([]);
      }
      elementFrame := new ValueFrame(env, elementDomain);
      Repr := Repr + elementFrame.Repr;
      state := ScriptExecution;
      parse := AScripted(before, governor, VStart);
      ElementIs(VStart);
      NothingRead();
      IdleIs();
      Executes(before, governor, []);
      BodyHeld();
    }

    method WriteElement(ghost before: seq<Item>, token: Token)
      requires this in Repr && env.Finite() && Idle() && state == ElementPending && elements == EvalItems(env, before, domain)
      requires elementFrame != null && HasElement(elementFrame.parse)
      requires LiveElement(elementFrame.parse) || (elementFrame.parse.VStart? && !token.BeginScript?)
      modifies Repr
      ensures Valid() && fresh(Repr - old(Repr))
      ensures parse == AfterElement(before, StepValue(old(elementFrame.parse), token))
      decreases |UnparseValue(elementFrame.parse)|, 2
    {
      hide *;
      IdleIs();
      ElementIs(elementFrame.parse);
      ElementInArray(before, elementFrame.parse, token);
      parse := AfterElement(before, StepValue(elementFrame.parse, token));
      elementFrame.Write(token);
      Repr := Repr + elementFrame.Repr;
      if elementFrame.InProgress() {
        IdleIs();
        ElementIs(elementFrame.parse);
        ElementHeld();
        return;
      }
      if elementFrame.Failed() {
        state := ElementFrameFailed;
        Stopped();
        return;
      }
      elements := elements + [elementFrame.value];
      state := ExpectingValueSeparator;
      ItemsEval(before, Once(elementFrame.parse.template.plain));
      OnceEval(env, elementFrame.parse.template.plain, domain);
      IdleIs();
      Between();
    }

    lemma ItemsEval(before: seq<Item>, i: Item)
      requires env.Finite()
      ensures EvalItems(env, before + [i], domain) == EvalItems(env, before, domain) + EvalItem(env, i, domain)
    {
      assert (before + [i])[..|before|] == before;
    }

    method WriteBody(token: Token)
      requires this in Repr && env.Finite() && LiveOrOver() && parse.AScripted?
      requires Executing(parse.before, parse.governor, UnparseValue(parse.body) + [token]) && HasElement(parse.body)
      modifies Repr
      ensures Valid() && fresh(Repr - old(Repr))
      ensures parse == StepArray(old(parse), token)
      decreases |UnparseArray(parse)|, 2
    {
      hide *;
      ghost var before, governor, body := parse.before, parse.governor, parse.body;
      BodyLive();
      ElementIs(body);
      Executes(before, governor, UnparseValue(body) + [token]);
      BodyInArray(before, governor, body, token);
      parse := StepArray(parse, token);
      elementFrame.Write(token);
      Repr := Repr + elementFrame.Repr;
      if elementFrame.InProgress() {
        ElementIs(elementFrame.parse);
        Executes(before, governor, UnparseValue(elementFrame.parse));
        BodyHeld();
        return;
      }
      if elementFrame.Failed() {
        state := ElementFrameFailed;
        Stopped();
        return;
      }
      ElementIs(elementFrame.parse);
      Executes(before, governor, TemplateTokens(elementFrame.parse.template));
      EndExecution(before, governor, elementFrame.parse.template);
    }

    method EndExecution(ghost before: seq<Item>, ghost governor: Script, ghost t: Template)
      requires this in Repr && env.Finite() && Executing(before, governor, TemplateTokens(t)) && HasElement(VDone(t))
      modifies this
      ensures Valid() && Repr == old(Repr)
      ensures parse == ASeparator(before + [PerMatch(governor, t)])
      decreases |TemplateTokens(t)|, 3
    {
      PushMatches(before, governor, t);
      state := ExpectingValueSeparator;
      parse := ASeparator(before + [PerMatch(governor, t)]);
    }

    method PushMatches(ghost before: seq<Item>, ghost governor: Script, ghost t: Template)
      requires this in Repr && env.Finite() && Executing(before, governor, TemplateTokens(t)) && HasElement(VDone(t))
      modifies this`elements, this`elementFrame, this`startFrom, this`elementDomain, this`scriptedTokens
      ensures elements == EvalItems(env, before + [PerMatch(governor, t)], domain) && Idle()
      decreases |TemplateTokens(t)|, 2
    {
      hide *;
      ElementIs(VDone(t));
      Executes(before, governor, TemplateTokens(t));
      IdleIs();
      ItemsEval(before, PerMatch(governor, t));
      PerMatchEval(env, governor, t, domain);
      NextMatch(env, script, domain, None, t);
      if scriptedTokens.Some? {
        elements := elements + [elementFrame.value];
        var tokens := scriptedTokens.value;
        scriptedTokens := None;
        Replay(tokens, t);
        IdleIs();
      }
    }

    /**
     The recording, written to a fresh frame per further match.  It holds the tokens of one template,
     so each frame is in progress until the last token and done with it: the replayed frame never
     fails and is never written to once it is done.
     */
    method Replay(tokens: seq<Token>, ghost t: Template)
      requires this in Repr && env.Finite() && tokens == TemplateTokens(t)
      modifies this`elements, this`elementFrame, this`startFrom, this`elementDomain
      ensures elements == old(elements) + EvalAt(env, t, Matches(env, script, domain, old(startFrom)))
      ensures startFrom == None && elementDomain == domain
      decreases |tokens|, 1
    {
      hide *;
      while true
        invariant elements + EvalAt(env, t, Matches(env, script, domain, startFrom))
               == old(elements) + EvalAt(env, t, Matches(env, script, domain, old(startFrom)))
        decreases env.left(script, domain, startFrom)
      {
        NextMatch(env, script, domain, startFrom, t);
        var success := FindNextScriptElement();
        if !success {
          break;
        }
        elementFrame := new ValueFrame(env, elementDomain);
        WriteAll(elementFrame, tokens, t);
        elements := elements + [elementFrame.value];
      }
    }

    // What a state says, and what makes the frame valid again.

    lemma Pending(token: Token)
      requires InProgress() && this in Repr && env.Finite() && LiveOrOver()
      requires if parse.AScripted?
               then Executing(parse.before, parse.governor, UnparseValue(parse.body) + [token]) && HasElement(parse.body)
               else Valid()
      ensures LiveArray(parse)
      ensures state == ExpectingFirstElement ==> parse == AFirst && Idle() && elementDomain == domain && elements == EvalItems(env, [], domain)
      ensures state == GovernorPending ==> parse.AScript? && Valid()
      ensures state == ScriptExecution ==> parse.AScripted?
      ensures state == ElementPending ==>
                && parse.AElement? && LiveElement(parse.element) && Idle() && elements == EvalItems(env, parse.before, domain)
                && HasElement(parse.element) && elementFrame != null && elementFrame.parse == parse.element
      ensures state == ExpectingValueSeparator ==> parse.ASeparator? && Idle() && elements == EvalItems(env, parse.items, domain)
      ensures state == ExpectingNextElement ==>
                parse.ANext? && Idle() && elementDomain == domain && elements == EvalItems(env, parse.items, domain)
      ensures state == ExpectingFirstElement || state == GovernorPending || state == ScriptExecution || state == ElementPending
              || state == ExpectingValueSeparator || state == ExpectingNextElement
    {
    }

    lemma IdleIs()
      ensures Idle() <==> elementDomain == domain && startFrom == None && scriptedTokens == None
    {
    }

    lemma ElementIs(v: ValueParse)
      requires this in Repr
      ensures HasElement(v) <==>
                && elementFrame != null && elementFrame in Repr && elementFrame.Repr <= Repr && this !in elementFrame.Repr
                && elementFrame.Valid() && elementFrame.parse == v && elementFrame.env == env && elementFrame.domain == elementDomain
    {
    }

    lemma Executes(before: seq<Item>, governor: Script, recorded: seq<Token>)
      requires env.Finite()
      ensures Executing(before, governor, recorded) <==>
                && state == ScriptExecution && elements == EvalItems(env, before, domain)
                && script == ScriptQuery(env, governor, domain)
                && match env.find(script, domain, None)
                   case None => elementDomain == domain && startFrom == None && scriptedTokens == None
                   case Some(n) => elementDomain == n && startFrom == Some(n) && scriptedTokens == Some(recorded)
    {
    }

    lemma NothingRead()
      ensures UnparseValue(VStart) == [] && LiveValue(VStart)
    {
    }

    lemma BodyLive()
      requires parse.AScripted? && LiveOrOver()
      ensures LiveValue(parse.body)
    {
    }

    lemma Governing()
      requires Valid() && state == GovernorPending
      ensures parse.AScript? && Idle() && elements == EvalItems(env, parse.before, domain)
      ensures scriptFrame != null && parse.script == scriptFrame.parse && LiveScript(scriptFrame.parse) && scriptFrame in Repr
      ensures scriptFrame.Repr <= Repr && this !in scriptFrame.Repr && scriptFrame.Valid() && scriptFrame.env == env && scriptFrame.domain == domain
    {
    }

    lemma GovernorHeld()
      requires this in Repr && env.Finite() && state == GovernorPending && parse.AScript? && Idle() && elements == EvalItems(env, parse.before, domain)
      requires scriptFrame != null && parse.script == scriptFrame.parse && LiveScript(scriptFrame.parse) && scriptFrame in Repr
      requires scriptFrame.Repr <= Repr && this !in scriptFrame.Repr && scriptFrame.Valid() && scriptFrame.env == env && scriptFrame.domain == domain
      ensures Valid()
    {
    }

    lemma BodyHeld()
      requires this in Repr && env.Finite() && parse.AScripted? && LiveValue(parse.body)
      requires Executing(parse.before, parse.governor, UnparseValue(parse.body)) && HasElement(parse.body)
      ensures Valid()
    {
    }

    lemma ElementHeld()
      requires this in Repr && env.Finite() && Idle() && state == ElementPending && parse.AElement? && LiveElement(parse.element)
      requires elements == EvalItems(env, parse.before, domain) && HasElement(parse.element)
      ensures Valid()
    {
    }

    // Between elements, at the end, and after a separator that was none.
    lemma Between()
      requires this in Repr && env.Finite()
      requires match parse
               case ASeparator(items) => items != [] && state == ExpectingValueSeparator && Idle() && elements == EvalItems(env, items, domain)
               case ANext(items) => items != [] && state == ExpectingNextElement && Idle() && elements == EvalItems(env, items, domain)
               case ADone(items) => state == ArrayDone && Idle() && elements == EvalItems(env, items, domain)
               case AFailed => state == ExpectingValueSeparatorError
               case _ => false
      ensures Valid()
    {
    }

    lemma Stopped()
      requires this in Repr && env.Finite() && parse == AFailed
      requires state == GovernorFailed || state == ElementFrameFailed || state == ExpectingValueSeparatorError
      ensures Valid()
    {
    }

    static method WriteAll(frame: ValueFrame<Node>, tokens: seq<Token>, ghost t: Template)
      requires frame.Valid() && frame.parse == VStart && tokens == TemplateTokens(t)
      modifies frame.Repr
      ensures frame.Valid() && frame.parse == VDone(t)
      ensures frame.value == Eval(frame.env, t, frame.domain) && !frame.Failed()
      decreases |tokens|, 0
    {
      hide *;
      TemplateRuns(t);
      RecordingBegins(tokens);
      var i := 0;
      while i < |tokens|
        invariant 0 <= i <= |tokens|
        invariant frame.Valid() && fresh(frame.Repr - old(frame.Repr))
        invariant Runs(StepValue, LiveValue, frame.parse, tokens[i..], VDone(t))
        invariant UnparseValue(frame.parse) == tokens[..i]
      {
        RecordingContinues(frame.parse, tokens, i, t);
        frame.Write(tokens[i]);
        i := i + 1;
      }
      RecordingEnds(frame.parse, tokens, t);
    }
  }

  class ObjectFrame<Node(!new)> {
    const env: Env<Node>
    const domain: Node
    var state: ObjectState
    var returnTo: ObjectState
    var members: map<string, Value>
    var memberName: string
    var elementDomain: Node
    var scriptFrame: ScriptFrame?<Node>
    var memberValueFrame: ValueFrame?<Node>
    ghost var parse: ObjectParse
    ghost var Repr: set<object>

    ghost predicate Valid()
      reads this, Repr
      ensures Valid() ==> this in Repr && (InProgress() <==> LiveObject(parse)) && (Failed() <==> parse == OFailed)
      ensures Valid() ==> env.Finite() && LiveOrOver() && (parse.ODone? ==> Object(members) == EvalPlain(env, parse.plain, domain))
      decreases Repr, 1
    {
      && this in Repr && env.Finite() && LiveOrOver()
      && match parse
         case OName(ms, aims) => state == NameState(ms) && Holds(ms, aims)
         case OScript(ms, aims, s) => state == AimPending && returnTo == NameState(ms) && Holds(ms, aims) && LiveScript(s) && HasScript(s)
         case OSeparator(ms, aims, name) => state == ExpectingSeparator && memberName == name && Holds(ms, aims)
         case OValue(ms, aims, name, v) => state == MemberValuePending && memberName == name && Holds(ms, aims) && LiveValue(v) && HasValue(v)
         case OMemberSeparator(ms, last) => state == ExpectingMemberSeparator && Holds(ms + [last], [])
         case ODone(plain) => state == ObjectDone && FinishedObject(parse) && Object(members) == EvalPlain(env, plain, domain)
         case OFailed => Failed()
         case OThrown => false
    }

    ghost predicate LiveOrOver()
      reads this
    {
      LiveObject(parse) || FinishedObject(parse) || parse.OFailed?
    }

    function NameState(ms: seq<Member>): ObjectState {
      if ms == [] then ExpectingFirstName else ExpectingNextName
    }

    // The members that were read, and the domain the next one will see.
    ghost predicate Holds(ms: seq<Member>, aims: seq<Script>)
      requires env.Finite()
      reads this
    {
      && members == EvalMembers(env, ms, domain).0
      && elementDomain == Aim(env, aims, domain, EvalMembers(env, ms, domain).1)
    }

    ghost predicate HasScript(s: ScriptParse)
      requires this in Repr
      reads this, Repr
      decreases Repr, 0
    {
      && scriptFrame != null && scriptFrame in Repr && scriptFrame.Repr <= Repr && this !in scriptFrame.Repr
      && scriptFrame.Valid() && scriptFrame.parse == s && scriptFrame.env == env && scriptFrame.domain == domain
    }

    ghost predicate HasValue(v: ValueParse)
      requires this in Repr
      reads this, Repr
      decreases Repr, 0
    {
      && memberValueFrame != null && memberValueFrame in Repr && memberValueFrame.Repr <= Repr && this !in memberValueFrame.Repr
      && memberValueFrame.Valid() && memberValueFrame.parse == v
      && memberValueFrame.env == env && memberValueFrame.domain == elementDomain
    }

    predicate InProgress()
      reads this
    {
      state == ExpectingFirstName || state == AimPending || state == ExpectingNextName || state == ExpectingSeparator
      || state == MemberValuePending || state == ExpectingMemberSeparator
    }

    predicate Failed()
      reads this
    {
      state == AimFailed || state == ExpectingFirstNameError || state == ExpectingSeparatorError || state == MemberValueFailed
      || state == ExpectingMemberSeparatorError || state == ExpectingNextNameError
    }

    constructor (env: Env<Node>, domain: Node)
      requires env.Finite()
      ensures Valid() && fresh(Repr) && parse == OName([], []) && this.env == env && this.domain == domain
    {
      this.env, this.domain, elementDomain := env, domain, domain;
      state, returnTo, members, memberName := ExpectingFirstName, ExpectingFirstName, map[], "";
      scriptFrame, memberValueFrame := null, null;
      parse, Repr := OName([], []), {this};
    }

    method Write(token: Token)
      requires Valid() && InProgress()
      modifies Repr
      ensures Valid() && fresh(Repr - old(Repr))
      ensures parse == StepObject(old(parse), token)
      decreases |UnparseObject(parse)|, 2
    {
      match state {
        case ExpectingFirstName =>
          if token.EndObject? {
            state := ObjectDone;
            parse := StepObject(parse, token);
          } else {
            WriteName(token, ExpectingFirstNameError);
          }
        case AimPending => WriteAim(token);
        case ExpectingSeparator => WriteSeparator(token);
        case MemberValuePending => WriteMemberValue(token);
        case ExpectingMemberSeparator => WriteMemberSeparator(token);
        case ExpectingNextName => WriteName(token, ExpectingNextNameError);
      }
    }

    /** The two name states; the first one also accepts the end of the object, see `Write`. */
    method WriteName(token: Token, error: ObjectState)
      requires Valid() && parse.OName? && (parse.members == [] ==> !token.EndObject?)
      requires error == ExpectingFirstNameError || error == ExpectingNextNameError
      modifies Repr
      ensures Valid() && fresh(Repr - old(Repr))
      ensures parse == StepObject(old(parse), token)
    {
      hide *;
      Pending();
      HoldsIs(parse.members, parse.aims);
      ghost var ms, aims := parse.members, parse.aims;
      NameInObject(ms, aims, token);
      ScriptBegins();
      parse := StepObject(parse, token);
      if token.BeginScript? {
        scriptFrame := new ScriptFrame(env, domain);
        Repr := Repr + scriptFrame.Repr;
        returnTo := state;
        state := AimPending;
        HoldsIs(ms, aims);
        AimHeld();
      } else if token.StringToken? {
        memberName := token.text;
        state := ExpectingSeparator;
        HoldsIs(ms, aims);
        Between();
      } else {
        state := error;
        Stopped();
      }
    }

    method WriteAim(token: Token)
      requires Valid() && parse.OScript?
      modifies Repr
      ensures Valid() && fresh(Repr - old(Repr))
      ensures parse == StepObject(old(parse), token)
      decreases |UnparseObject(parse)|, 1
    {
      hide *;
      Pending();
      ghost var ms, aims := parse.members, parse.aims;
      HoldsIs(ms, aims);
      ScriptInObject(ms, aims, scriptFrame.parse, token);
      parse := StepObject(parse, token);
      scriptFrame.Write(token);
      Repr := Repr + scriptFrame.Repr;
      if scriptFrame.InProgress() {
        HoldsIs(ms, aims);
        AimHeld();
        return;
      }
      if scriptFrame.Failed() {
        state := AimFailed;
        Stopped();
        return;
      }
      AimSnoc(env, aims, scriptFrame.parse.script, domain, EvalMembers(env, ms, domain).1);
      var element := env.find(scriptFrame.Asked(), domain, None);
      if element.Some? {
        elementDomain := element.value;
      } else {
        elementDomain := domain;
      }
      state := returnTo;
      HoldsIs(ms, parse.aims);
      Between();
    }

    method WriteSeparator(token: Token)
      requires Valid() && parse.OSeparator?
      modifies Repr
      ensures Valid() && fresh(Repr - old(Repr))
      ensures parse == StepObject(old(parse), token)
    {
      hide *;
      Pending();
      ghost var ms, aims := parse.members, parse.aims;
      HoldsIs(ms, aims);
      SeparatorInObject(ms, aims, memberName, token);
      parse := StepObject(parse, token);
      if token.NameSeparator? {
        memberValueFrame := new ValueFrame(env, elementDomain);
        Repr := Repr + memberValueFrame.Repr;
        state := MemberValuePending;
        HoldsIs(ms, aims);
        ValueHeld();
      } else {
        state := ExpectingSeparatorError;
        Stopped();
      }
    }

    method WriteMemberValue(token: Token)
      requires Valid() && parse.OValue?
      modifies Repr
      ensures Valid() && fresh(Repr - old(Repr))
      ensures parse == StepObject(old(parse), token)
      ensures state == ExpectingMemberSeparator ==>
                && members.Keys == old(members).Keys + {memberName} && memberName == old(memberName)
                && (forall name :: name in old(members) ==> members[name] == old(members)[name])
                && (memberName !in old(members) ==> memberValueFrame != null && members[memberName] == memberValueFrame.value)
      decreases |UnparseObject(parse)|, 1
    {
      hide *;
      Pending();
      ghost var ms, aims := parse.members, parse.aims;
      HoldsIs(ms, aims);
      ValueInObject(ms, aims, memberName, memberValueFrame.parse, token);
      parse := StepObject(parse, token);
      memberValueFrame.Write(token);
      Repr := Repr + memberValueFrame.Repr;
      if memberValueFrame.InProgress() {
        HoldsIs(ms, aims);
        ValueHeld();
        return;
      }
      if memberValueFrame.Failed() {
        state := MemberValueFailed;
        Stopped();
        return;
      }
      InsertKeeps(members, memberName, memberValueFrame.value);
      members := Insert(members, memberName, memberValueFrame.value);
      state := ExpectingMemberSeparator;
      OneMoreMember(env, ms, Member(aims, memberName, memberValueFrame.parse.template), domain);
      HoldsIs(ms + [parse.last], []);
      Between();
    }

    method WriteMemberSeparator(token: Token)
      requires Valid() && parse.OMemberSeparator?
      modifies Repr
      ensures Valid() && fresh(Repr - old(Repr))
      ensures parse == StepObject(old(parse), token)
    {
      hide *;
      Pending();
      ghost var ms, last := parse.members, parse.last;
      HoldsIs(ms + [last], []);
      MemberSeparatorInObject(ms, last, token);
      OneMoreMember(env, ms, last, domain);
      parse := StepObject(parse, token);
      if token.EndObject? {
        state := ObjectDone;
        Between();
      } else if token.ValueSeparator? {
        state := ExpectingNextName;
        HoldsIs(ms + [last], []);
        Between();
      } else {
        state := ExpectingMemberSeparatorError;
        Stopped();
      }
    }

    // What a state says, and what makes the frame valid again.

    lemma {:induction false} Pending()
      requires Valid()
      ensures match parse
              case OName(ms, aims) => state == (if ms == [] then ExpectingFirstName else ExpectingNextName) && Holds(ms, aims)
              case OScript(ms, aims, s) =>
                && state == AimPending && returnTo == (if ms == [] then ExpectingFirstName else ExpectingNextName) && Holds(ms, aims)
                && scriptFrame != null && s == scriptFrame.parse && LiveScript(s) && scriptFrame in Repr && scriptFrame.Repr <= Repr
                && this !in scriptFrame.Repr && scriptFrame.Valid() && scriptFrame.env == env && scriptFrame.domain == domain
              case OSeparator(ms, aims, name) => state == ExpectingSeparator && memberName == name && Holds(ms, aims)
              case OValue(ms, aims, name, v) =>
                && state == MemberValuePending && memberName == name && Holds(ms, aims)
                && memberValueFrame != null && v == memberValueFrame.parse && LiveValue(v) && memberValueFrame in Repr
                && memberValueFrame.Repr <= Repr && this !in memberValueFrame.Repr && memberValueFrame.Valid()
                && memberValueFrame.env == env && memberValueFrame.domain == elementDomain
              case OMemberSeparator(ms, last) => state == ExpectingMemberSeparator && Holds(ms + [last], [])
              case _ => true
    {
    }

    lemma {:induction false} HoldsIs(ms: seq<Member>, aims: seq<Script>)
      requires env.Finite()
      ensures Holds(ms, aims) <==>
                && members == EvalMembers(env, ms, domain).0
                && elementDomain == Aim(env, aims, domain, EvalMembers(env, ms, domain).1)
      ensures Aim(env, [], domain, EvalMembers(env, ms, domain).1) == EvalMembers(env, ms, domain).1
    {
    }

    lemma {:induction false} AimHeld()
      requires this in Repr && env.Finite() && state == AimPending && parse.OScript? && Holds(parse.members, parse.aims)
      requires returnTo == if parse.members == [] then ExpectingFirstName else ExpectingNextName
      requires scriptFrame != null && parse.script == scriptFrame.parse && LiveScript(scriptFrame.parse) && scriptFrame in Repr
      requires scriptFrame.Repr <= Repr && this !in scriptFrame.Repr && scriptFrame.Valid() && scriptFrame.env == env && scriptFrame.domain == domain
      ensures Valid()
    {
    }

    lemma {:induction false} ValueHeld()
      requires this in Repr && env.Finite() && state == MemberValuePending && parse.OValue? && memberName == parse.name
      requires Holds(parse.members, parse.aims) && memberValueFrame != null && parse.value == memberValueFrame.parse
      requires LiveValue(memberValueFrame.parse) && memberValueFrame in Repr && memberValueFrame.Repr <= Repr && this !in memberValueFrame.Repr
      requires memberValueFrame.Valid() && memberValueFrame.env == env && memberValueFrame.domain == elementDomain
      ensures Valid()
    {
    }

    // Outside sub-frames.
    lemma {:induction false} Between()
      requires this in Repr && env.Finite()
      requires match parse
               case OName(ms, aims) => state == (if ms == [] then ExpectingFirstName else ExpectingNextName) && Holds(ms, aims)
               case OSeparator(ms, aims, name) => state == ExpectingSeparator && memberName == name && Holds(ms, aims)
               case OMemberSeparator(ms, last) => state == ExpectingMemberSeparator && Holds(ms + [last], [])
               case ODone(plain) => state == ObjectDone && FinishedObject(parse) && Object(members) == EvalPlain(env, plain, domain)
               case _ => false
      ensures Valid()
    {
    }

    lemma {:induction false} Stopped()
      requires this in Repr && env.Finite() && parse == OFailed
      requires state == AimFailed || state == ExpectingFirstNameError || state == ExpectingSeparatorError || state == MemberValueFailed
               || state == ExpectingMemberSeparatorError || state == ExpectingNextNameError
      ensures Valid()
    {
    }
  }

  datatype TextState =
    | ExpectingRoot | RootScriptPending | RootArrayPending | RootObjectPending | TextDone
    | ExpectingRootError | RootScriptFailed | RootArrayFailed | RootObjectFailed

  class TextFrame<Node(!new)> {
    const env: Env<Node>
    const document: Node
    var domain: Node
    var state: TextState
    var value: Value
    var scriptFrame: ScriptFrame?<Node>
    var arrayFrame: ArrayFrame?<Node>
    var objectFrame: ObjectFrame?<Node>
    ghost var parse: TextParse
    ghost var Repr: set<object>

    ghost predicate Valid()
      reads this, Repr
      ensures Valid() ==> this in Repr && (InProgress() <==> LiveText(parse)) && (Failed() <==> parse == TFailed)
      ensures Valid() ==> env.Finite() && (parse.TDone? ==> state == TextDone && value == EvalDocument(env, parse.document, document))
    {
      && this in Repr && env.Finite()
      && match parse
         case TRoot(aims) => state == ExpectingRoot && domain == RootDomain(env, aims, document)
         case TScript(aims, s) => state == RootScriptPending && domain == RootDomain(env, aims, document) && LiveScript(s) && HasScript(s)
         case TArray(aims, a) => state == RootArrayPending && domain == RootDomain(env, aims, document) && LiveArray(a) && HasArray(a)
         case TObject(aims, o) => state == RootObjectPending && domain == RootDomain(env, aims, document) && LiveObject(o) && HasObject(o)
         case TDone(d) => state == TextDone && value == EvalDocument(env, d, document)
         case TFailed => Failed()
         case TThrown => false
    }

    ghost predicate HasScript(s: ScriptParse)
      requires this in Repr
      reads this, Repr
    {
      && scriptFrame != null && scriptFrame in Repr && scriptFrame.Repr <= Repr && this !in scriptFrame.Repr
      && scriptFrame.Valid() && scriptFrame.parse == s && scriptFrame.env == env && scriptFrame.domain == domain
    }

    ghost predicate HasArray(a: ArrayParse)
      requires this in Repr
      reads this, Repr
    {
      && arrayFrame != null && arrayFrame in Repr && arrayFrame.Repr <= Repr && this !in arrayFrame.Repr
      && arrayFrame.Valid() && arrayFrame.parse == a && arrayFrame.env == env && arrayFrame.domain == domain
    }

    ghost predicate HasObject(o: ObjectParse)
      requires this in Repr
      reads this, Repr
    {
      && objectFrame != null && objectFrame in Repr && objectFrame.Repr <= Repr && this !in objectFrame.Repr
      && objectFrame.Valid() && objectFrame.parse == o && objectFrame.env == env && objectFrame.domain == domain
    }

    predicate InProgress()
      reads this
    {
      state == ExpectingRoot || state == RootScriptPending || state == RootArrayPending || state == RootObjectPending
    }

    predicate Failed()
      reads this
    {
      state == ExpectingRootError || state == RootScriptFailed || state == RootArrayFailed || state == RootObjectFailed
    }

    constructor (env: Env<Node>, document: Node)
      requires env.Finite()
      ensures Valid() && fresh(Repr) && parse == TRoot([]) && this.env == env && this.document == document
    {
      this.env, this.document, domain := env, document, document;
      state, value, scriptFrame, arrayFrame, objectFrame := ExpectingRoot, Null, null, null, null;
      parse, Repr := TRoot([]), {this};
    }

    method Write(token: Token)
      requires Valid() && InProgress()
      modifies Repr
      ensures Valid() && fresh(Repr - old(Repr))
      ensures parse == StepText(old(parse), token)
    {
      match state {
        case ExpectingRoot => WriteRoot(token);
        case RootScriptPending => WriteScript(token);
        case RootArrayPending => WriteArray(token);
        case RootObjectPending => WriteObject(token);
      }
    }

    method WriteRoot(token: Token)
      requires Valid() && parse.TRoot?
      modifies Repr
      ensures Valid() && fresh(Repr - old(Repr))
      ensures parse == StepText(old(parse), token)
    {
      hide *;
      Pending();
      RootStep(parse.aims, token);
      parse := StepText(parse, token);
      if token.BeginScript? {
        scriptFrame := new ScriptFrame(env, domain);
        Repr := Repr + scriptFrame.Repr;
        state := RootScriptPending;
        ScriptHeld();
      } else if token.BeginArray? {
        arrayFrame := new ArrayFrame(env, domain);
        Repr := Repr + arrayFrame.Repr;
        state := RootArrayPending;
        ArrayHeld();
      } else if token.BeginObject? {
        objectFrame := new ObjectFrame(env, domain);
        Repr := Repr + objectFrame.Repr;
        state := RootObjectPending;
        ObjectHeld();
      } else {
        state := ExpectingRootError;
        Stopped();
      }
    }

    method WriteScript(token: Token)
      requires Valid() && parse.TScript?
      modifies Repr
      ensures Valid() && fresh(Repr - old(Repr))
      ensures parse == StepText(old(parse), token)
    {
      hide *;
      Pending();
      ghost var aims := parse.aims;
      ScriptInText(aims, scriptFrame.parse, token);
      parse := StepText(parse, token);
      scriptFrame.Write(token);
      Repr := Repr + scriptFrame.Repr;
      if scriptFrame.InProgress() {
        ScriptHeld();
        return;
      }
      if scriptFrame.Failed() {
        state := RootScriptFailed;
        Stopped();
        return;
      }
      RootDomainSnoc(env, aims, scriptFrame.parse.script, document);
      var element := env.find(scriptFrame.Asked(), domain, None);
      if element.Some? {
        domain := element.value;
      }
      state := ExpectingRoot;
      Aimed();
    }

    method WriteArray(token: Token)
      requires Valid() && parse.TArray?
      modifies Repr
      ensures Valid() && fresh(Repr - old(Repr))
      ensures parse == StepText(old(parse), token)
    {
      hide *;
      Pending();
      ghost var aims := parse.aims;
      ArrayInText(aims, arrayFrame.parse, token);
      parse := StepText(parse, token);
      arrayFrame.Write(token);
      Repr := Repr + arrayFrame.Repr;
      if arrayFrame.InProgress() {
        ArrayHeld();
        return;
      }
      if arrayFrame.Failed() {
        state := RootArrayFailed;
        Stopped();
        return;
      }
      value := Array(arrayFrame.elements);
      state := TextDone;
      EvalOfPlain(env, ArrayT(arrayFrame.parse.items), domain);
      Finished();
    }

    method WriteObject(token: Token)
      requires Valid() && parse.TObject?
      modifies Repr
      ensures Valid() && fresh(Repr - old(Repr))
      ensures parse == StepText(old(parse), token)
    {
      hide *;
      Pending();
      ghost var aims := parse.aims;
      ObjectInText(aims, objectFrame.parse, token);
      parse := StepText(parse, token);
      objectFrame.Write(token);
      Repr := Repr + objectFrame.Repr;
      if objectFrame.InProgress() {
        ObjectHeld();
        return;
      }
      if objectFrame.Failed() {
        state := RootObjectFailed;
        Stopped();
        return;
      }
      value := Object(objectFrame.members);
      state := TextDone;
      Finished();
    }

    // What a pending state says, and what makes the frame valid again.

    lemma Pending()
      requires Valid()
      ensures match parse
              case TRoot(aims) => state == ExpectingRoot && domain == RootDomain(env, aims, document)
              case TScript(aims, s) =>
                && state == RootScriptPending && domain == RootDomain(env, aims, document)
                && scriptFrame != null && s == scriptFrame.parse && LiveScript(s) && scriptFrame in Repr && scriptFrame.Repr <= Repr
                && this !in scriptFrame.Repr && scriptFrame.Valid() && scriptFrame.env == env && scriptFrame.domain == domain
              case TArray(aims, a) =>
                && state == RootArrayPending && domain == RootDomain(env, aims, document)
                && arrayFrame != null && a == arrayFrame.parse && LiveArray(a) && arrayFrame in Repr && arrayFrame.Repr <= Repr
                && this !in arrayFrame.Repr && arrayFrame.Valid() && arrayFrame.env == env && arrayFrame.domain == domain
              case TObject(aims, o) =>
                && state == RootObjectPending && domain == RootDomain(env, aims, document)
                && objectFrame != null && o == objectFrame.parse && LiveObject(o) && objectFrame in Repr && objectFrame.Repr <= Repr
                && this !in objectFrame.Repr && objectFrame.Valid() && objectFrame.env == env && objectFrame.domain == domain
              case _ => true
    {
    }

    lemma Aimed()
      requires this in Repr && env.Finite() && state == ExpectingRoot && parse.TRoot? && domain == RootDomain(env, parse.aims, document)
      ensures Valid()
    {
    }

    lemma ScriptHeld()
      requires this in Repr && env.Finite() && state == RootScriptPending && parse.TScript? && domain == RootDomain(env, parse.aims, document)
      requires scriptFrame != null && parse.ofScript == scriptFrame.parse && LiveScript(scriptFrame.parse) && scriptFrame in Repr
      requires scriptFrame.Repr <= Repr && this !in scriptFrame.Repr && scriptFrame.Valid() && scriptFrame.env == env && scriptFrame.domain == domain
      ensures Valid()
    {
    }

    lemma ArrayHeld()
      requires this in Repr && env.Finite() && state == RootArrayPending && parse.TArray? && domain == RootDomain(env, parse.aims, document)
      requires arrayFrame != null && parse.ofArray == arrayFrame.parse && LiveArray(arrayFrame.parse) && arrayFrame in Repr
      requires arrayFrame.Repr <= Repr && this !in arrayFrame.Repr && arrayFrame.Valid() && arrayFrame.env == env && arrayFrame.domain == domain
      ensures Valid()
    {
    }

    lemma ObjectHeld()
      requires this in Repr && env.Finite() && state == RootObjectPending && parse.TObject? && domain == RootDomain(env, parse.aims, document)
      requires objectFrame != null && parse.ofObject == objectFrame.parse && LiveObject(objectFrame.parse) && objectFrame in Repr
      requires objectFrame.Repr <= Repr && this !in objectFrame.Repr && objectFrame.Valid() && objectFrame.env == env && objectFrame.domain == domain
      ensures Valid()
    {
    }

    lemma Finished()
      requires this in Repr && env.Finite() && state == TextDone && parse.TDone? && domain == RootDomain(env, parse.document.aims, document)
      requires value == EvalPlain(env, parse.document.root, domain)
      ensures Valid()
    {
    }

    lemma Stopped()
      requires this in Repr && env.Finite() && parse == TFailed
      requires state == ExpectingRootError || state == RootScriptFailed || state == RootArrayFailed || state == RootObjectFailed
      ensures Valid()
    {
    }
  }

  /** Tokens written to a text until it is over; the parser stops caring after that. */
  method WriteTokens<Node(!new)>(text: TextFrame<Node>, tokens: seq<Token>) returns (written: nat)
    requires text.Valid() && text.parse == TRoot([])
    modifies text.Repr
    ensures text.Valid() && fresh(text.Repr - old(text.Repr))
    ensures written <= |tokens| && text.parse == AfterTokens(tokens[..written])
    ensures text.InProgress() ==> written == |tokens|
    ensures forall n :: 0 <= n < written ==> TProgress(AfterTokens(tokens[..n]))
  {
    hide *;
    written := 0;
    AfterNone();
    while written < |tokens| && text.InProgress()
      invariant 0 <= written <= |tokens|
      invariant text.Valid() && fresh(text.Repr - old(text.Repr))
      invariant text.parse == AfterTokens(tokens[..written])
      invariant forall n :: 0 <= n < written ==> TProgress(AfterTokens(tokens[..n]))
    {
      AfterOneMore(tokens[..written], tokens[written]);
      assert tokens[..written] + [tokens[written]] == tokens[..written + 1];
      text.Write(tokens[written]);
      written := written + 1;
    }
  }

  /** The tokens of a document leave a text done, on the last of them, with the value it evaluates to. */
  method WriteDocument<Node(!new)>(text: TextFrame<Node>, tokens: seq<Token>, ghost d: Document)
    requires text.Valid() && text.parse == TRoot([]) && IsRoot(d.root) && tokens == DocumentTokens(d)
    modifies text.Repr
    ensures text.state == TextDone && text.value == EvalDocument(text.env, d, text.document)
    ensures d.root.ObjectT? ==> ReadsByName(text.env, d.root.members + [d.root.last], RootDomain(text.env, d.aims, text.document), text.value)
  {
    DocumentByName(text.env, d, text.document);
    DocumentRuns(d);
    RunsFeed(StepText, LiveText, TRoot([]), tokens, TDone(d));
    var written := WriteTokens(text, tokens);
    assert tokens[..|tokens|] == tokens;
  }
}
