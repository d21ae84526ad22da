/**
 The grammar of section 2 of RFC 4627 on token sequences, without parse trees; and the script notation.
 */
module JsonNotation {
  import opened Wrappers
  import opened JsonTemplate
  import opened JsonEval
  import opened JsonGrammar

  // ---------------------------------------------------------------------------------------------
  // JSON

  ghost predicate IsAtom(ts: seq<Token>) {
    |ts| == 1 && (ts[0].NullToken? || ts[0].BoolToken? || ts[0].NumberToken? || ts[0].StringToken?)
  }

  ghost predicate IsValue(ts: seq<Token>)
    decreases |ts|, 1
  {
    IsAtom(ts) || IsArray(ts) || IsObject(ts)
  }

  ghost predicate IsArray(ts: seq<Token>)
    decreases |ts|, 0
  {
    |ts| > 1 && ts[0] == BeginArray && ts[|ts| - 1] == EndArray && (|ts| == 2 || AreElements(ts[1..|ts| - 1]))
  }

  // Values with separators between them.
  ghost predicate AreElements(ts: seq<Token>)
    decreases |ts|, 2
  {
    IsValue(ts) || exists i :: 0 <= i < |ts| && ts[i] == ValueSeparator && IsValue(ts[..i]) && AreElements(ts[i + 1..])
  }

  ghost predicate IsObject(ts: seq<Token>)
    decreases |ts|, 0
  {
    |ts| > 1 && ts[0] == BeginObject && ts[|ts| - 1] == EndObject && (|ts| == 2 || AreMembers(ts[1..|ts| - 1]))
  }

  ghost predicate IsMember(ts: seq<Token>)
    decreases |ts|, 2
  {
    |ts| > 2 && ts[0].StringToken? && ts[1] == NameSeparator && IsValue(ts[2..])
  }

  // Members with separators between them.
  ghost predicate AreMembers(ts: seq<Token>)
    decreases |ts|, 3
  {
    IsMember(ts) || exists i :: 0 <= i < |ts| && ts[i] == ValueSeparator && IsMember(ts[..i]) && AreMembers(ts[i + 1..])
  }

  // ---------------------------------------------------------------------------------------------
  // From trees to tokens

  lemma ElementsSplit(ts: seq<Token>) returns (i: int)
    requires AreElements(ts) && !IsValue(ts)
    ensures 0 <= i < |ts| && ts[i] == ValueSeparator && IsValue(ts[..i]) && AreElements(ts[i + 1..])
  {
    hide IsValue;
    i :| 0 <= i < |ts| && ts[i] == ValueSeparator && IsValue(ts[..i]) && AreElements(ts[i + 1..]);
  }

  lemma MembersSplit(ts: seq<Token>) returns (i: int)
    requires AreMembers(ts) && !IsMember(ts)
    ensures 0 <= i < |ts| && ts[i] == ValueSeparator && IsMember(ts[..i]) && AreMembers(ts[i + 1..])
  {
    hide IsMember;
    i :| 0 <= i < |ts| && ts[i] == ValueSeparator && IsMember(ts[..i]) && AreMembers(ts[i + 1..]);
  }

  lemma ElementsCons(a: seq<Token>, b: seq<Token>)
    requires IsValue(a) && AreElements(b)
    ensures AreElements(a + [ValueSeparator] + b)
  {
    hide IsValue;
    var ts := a + [ValueSeparator] + b;
    assert ts[|a|] == ValueSeparator && ts[..|a|] == a && ts[|a| + 1..] == b;
  }

  lemma MembersCons(a: seq<Token>, b: seq<Token>)
    requires IsMember(a) && AreMembers(b)
    ensures AreMembers(a + [ValueSeparator] + b)
  {
    hide IsMember;
    var ts := a + [ValueSeparator] + b;
    assert ts[|a|] == ValueSeparator && ts[..|a|] == a && ts[|a| + 1..] == b;
  }

  lemma {:induction false} ElementsSnoc(a: seq<Token>, b: seq<Token>)
    requires AreElements(a) && IsValue(b)
    ensures AreElements(a + [ValueSeparator] + b)
    decreases |a|
  {
    hide *;
    OneElement(b);
    if IsValue(a) {
      ElementsCons(a, b);
    } else {
      var i := ElementsSplit(a);
      ElementsSnoc(a[i + 1..], b);
      ElementsCons(a[..i], a[i + 1..] + [ValueSeparator] + b);
      assert a[..i] + [ValueSeparator] + (a[i + 1..] + [ValueSeparator] + b) == a + [ValueSeparator] + b;
    }
  }

  lemma OneElement(ts: seq<Token>)
    requires IsValue(ts)
    ensures AreElements(ts)
  {
    hide IsValue;
  }

  lemma OneMember(ts: seq<Token>)
    requires IsMember(ts)
    ensures AreMembers(ts)
  {
    hide IsMember;
  }

  lemma {:induction false} MembersSnoc(a: seq<Token>, b: seq<Token>)
    requires AreMembers(a) && IsMember(b)
    ensures AreMembers(a + [ValueSeparator] + b)
    decreases |a|
  {
    hide *;
    OneMember(b);
    if IsMember(a) {
      MembersCons(a, b);
    } else {
      var i := MembersSplit(a);
      MembersSnoc(a[i + 1..], b);
      MembersCons(a[..i], a[i + 1..] + [ValueSeparator] + b);
      assert a[..i] + [ValueSeparator] + (a[i + 1..] + [ValueSeparator] + b) == a + [ValueSeparator] + b;
    }
  }

  lemma InBrackets(inner: seq<Token>)
    ensures inner == [] || AreElements(inner) ==> IsArray([BeginArray] + inner + [EndArray])
    ensures inner == [] || AreMembers(inner) ==> IsObject([BeginObject] + inner + [EndObject])
  {
    hide AreElements;
    hide AreMembers;
    assert ([BeginArray] + inner + [EndArray])[1..|inner| + 1] == inner;
    assert ([BeginObject] + inner + [EndObject])[1..|inner| + 1] == inner;
  }

  lemma TreeTokens(p: Plain)
    requires IsJsonPlain(p)
    ensures p.ArrayT? ==> PlainTokens(p) == [BeginArray] + ItemsTokens(p.elements) + [EndArray] && (p.elements == [] ==> ItemsTokens(p.elements) == [])
    ensures p.EmptyObjectT? ==> PlainTokens(p) == [BeginObject] + [] + [EndObject]
    ensures p.ObjectT? ==>
              && PlainTokens(p) == [BeginObject] + (MembersTokens(p.members) + MemberTokens(p.last)) + [EndObject]
              && (p.members == [] ==> MembersTokens(p.members) + MemberTokens(p.last) == MemberTokens(p.last))
    ensures !IsRoot(p) ==> IsAtom(PlainTokens(p))
  {
    hide ItemTokens;
    hide MemberTokens;
    assert AimTokens([]) == [];
  }

  lemma ValueIf(ts: seq<Token>)
    ensures IsAtom(ts) || IsArray(ts) || IsObject(ts) ==> IsValue(ts)
  {
    hide IsAtom;
    hide IsArray;
    hide IsObject;
  }

  lemma RootKinds(p: Plain)
    ensures IsRoot(p) <==> p.ArrayT? || p.EmptyObjectT? || p.ObjectT?
  {
  }

  /** The tokens of a tree without scripts are a JSON value. */
  lemma {:induction false} TreeIsValue(p: Plain)
    requires IsJsonPlain(p)
    ensures IsValue(PlainTokens(p))
    ensures p.ArrayT? ==> IsArray(PlainTokens(p))
    ensures p.EmptyObjectT? || p.ObjectT? ==> IsObject(PlainTokens(p))
    decreases p, 1
  {
    hide *;
    TreeTokens(p);
    RootKinds(p);
    ValueIf(PlainTokens(p));
    if p.ArrayT? {
      InBrackets(ItemsTokens(p.elements));
      if p.elements != [] {
        TreesAreElements(p, |p.elements|);
        assert p.elements[..|p.elements|] == p.elements;
      }
    } else if p.EmptyObjectT? {
      InBrackets([]);
    } else if p.ObjectT? {
      InBrackets(MembersTokens(p.members) + MemberTokens(p.last));
      TreesAreMembers(p, |p.members|);
      MemberIsMember(p, p.last);
      assert p.members[..|p.members|] == p.members;
      if p.members != [] {
        JoinedMembers(p.members, p.last);
      } else {
        OneMember(MemberTokens(p.last));
      }
    }
  }

  // The members without the separator at the end.
  function Joined(members: seq<Member>): seq<Token>
    requires members != []
  {
    MembersTokens(members[..|members| - 1]) + MemberTokens(members[|members| - 1])
  }

  lemma JoinedMembers(members: seq<Member>, last: Member)
    requires members != [] && AreMembers(Joined(members)) && IsMember(MemberTokens(last))
    ensures AreMembers(MembersTokens(members) + MemberTokens(last))
  {
    hide IsMember;
    hide AreMembers;
    hide MemberTokens;
    MembersSnoc(Joined(members), MemberTokens(last));
    assert MembersTokens(members) + MemberTokens(last) == Joined(members) + [ValueSeparator] + MemberTokens(last);
  }

  lemma {:induction false} TreesAreElements(p: Plain, n: nat)
    requires p.ArrayT? && IsJsonPlain(p) && 0 < n <= |p.elements|
    ensures AreElements(ItemsTokens(p.elements[..n]))
    decreases p, 0, n
  {
    var items := p.elements;
    TreeIsValue(items[n - 1].plain);
    hide AreElements;
    hide IsValue;
    assert items[..n][..n - 1] == items[..n - 1];
    if n == 1 {
      assert items[..0] == [];
      assert ItemsTokens(items[..1]) == PlainTokens(items[0].plain);
      OneElement(PlainTokens(items[0].plain));
    } else {
      TreesAreElements(p, n - 1);
      ElementsSnoc(ItemsTokens(items[..n - 1]), PlainTokens(items[n - 1].plain));
      SeparatedIsJoined(items[..n - 1]);
    }
  }

  lemma SeparatedIsJoined(items: seq<Item>)
    requires items != []
    ensures SeparatedItems(items) == ItemsTokens(items) + [ValueSeparator]
  {
    hide ItemTokens;
  }

  lemma {:induction false} MemberIsMember(p: Plain, m: Member)
    requires p.ObjectT? && IsJsonPlain(p) && (m == p.last || m in p.members)
    ensures IsMember(MemberTokens(m))
    decreases p, 0, 0
  {
    assert IsJsonMember(m);
    TreeIsValue(m.body.plain);
    var ts := MemberTokens(m);
    BareMember(m);
    assert ts == [StringToken(m.name), NameSeparator] + PlainTokens(m.body.plain);
    assert ts[2..] == PlainTokens(m.body.plain);
    SomeTokens(m.body.plain);
    hide IsValue;
  }

  lemma BareMember(m: Member)
    requires m.aims == [] && m.body.Plain?
    ensures MemberTokens(m) == [StringToken(m.name), NameSeparator] + PlainTokens(m.body.plain)
  {
    hide PlainTokens;
    hide ScriptTokens;
    assert AimTokens([]) == [];
  }

  lemma SomeTokens(p: Plain)
    ensures PlainTokens(p) != []
  {
  }

  lemma {:induction false} TreesAreMembers(p: Plain, n: nat)
    requires p.ObjectT? && IsJsonPlain(p) && n <= |p.members|
    ensures n > 0 ==> AreMembers(Joined(p.members[..n]))
    decreases p, 0, n + 1
  {
    var members := p.members;
    if n > 0 {
      MemberIsMember(p, members[n - 1]);
      hide IsMember;
      hide AreMembers;
      assert members[..n][..n - 1] == members[..n - 1];
      if n == 1 {
        assert members[..0] == [];
        assert Joined(members[..1]) == MemberTokens(members[0]);
        OneMember(MemberTokens(members[0]));
      } else {
        TreesAreMembers(p, n - 1);
        JoinedMembers(members[..n - 1], members[n - 1]);
      }
    }
  }

  // ---------------------------------------------------------------------------------------------
  // From tokens to trees

  lemma {:induction false} ItemsCons(x: Item, items: seq<Item>)
    requires items != []
    ensures ItemsTokens([x] + items) == ItemTokens(x) + [ValueSeparator] + ItemsTokens(items)
  {
    hide ItemTokens;
    var all, last := [x] + items, |items| - 1;
    assert all[..|all| - 1] == [x] + items[..last];
    if last == 0 {
      assert items[..0] == [] && [x] + items[..0] == [x] && [x][..0] == [];
      assert SeparatedItems([x]) == ItemTokens(x) + [ValueSeparator];
    } else {
      ItemsCons(x, items[..last]);
      SeparatedIsJoined([x] + items[..last]);
      SeparatedIsJoined(items[..last]);
    }
  }

  lemma {:induction false} MembersTokensCons(m: Member, members: seq<Member>)
    ensures MembersTokens([m] + members) == MemberTokens(m) + [ValueSeparator] + MembersTokens(members)
  {
    hide MemberTokens;
    var all, last := [m] + members, |members| - 1;
    if members == [] {
      assert [m][..0] == [] && [m] + members == [m];
    } else {
      assert all[..|all| - 1] == [m] + members[..last];
      MembersTokensCons(m, members[..last]);
    }
  }

  /** A JSON value is the tokens of a tree without scripts. */
  lemma {:induction false} ValueHasTree(ts: seq<Token>) returns (p: Plain)
    requires IsValue(ts)
    ensures IsJsonPlain(p) && PlainTokens(p) == ts
    ensures IsArray(ts) || IsObject(ts) ==> IsRoot(p)
    decreases |ts|, 1
  {
    if IsArray(ts) {
      if |ts| == 2 {
        p := ArrayT([]);
        assert ts == [BeginArray, EndArray];
      } else {
        var items := ElementsHaveTrees(ts[1..|ts| - 1]);
        p := ArrayT(items);
        assert ts == [BeginArray] + ts[1..|ts| - 1] + [EndArray];
      }
    } else if IsObject(ts) {
      if |ts| == 2 {
        p := EmptyObjectT([]);
        assert AimTokens([]) == [];
        assert ts == [BeginObject, EndObject];
      } else {
        var members := MembersHaveTrees(ts[1..|ts| - 1]);
        p := ObjectT(members[..|members| - 1], members[|members| - 1]);
        assert ts == [BeginObject] + ts[1..|ts| - 1] + [EndObject];
      }
    } else {
      assert ts == [ts[0]];
      p := match ts[0]
           case NullToken => NullT
           case BoolToken(b) => BoolT(b)
           case NumberToken(n) => NumberT(n)
           case StringToken(text) => StringT(text)
           case _ => NullT;
    }
  }

  lemma {:induction false} ElementsHaveTrees(ts: seq<Token>) returns (items: seq<Item>)
    requires AreElements(ts)
    ensures items != [] && ItemsTokens(items) == ts
    ensures forall i :: 0 <= i < |items| ==> items[i].Once? && IsJsonPlain(items[i].plain)
    decreases |ts|, 2
  {
    hide *;
    if IsValue(ts) {
      var p := ValueHasTree(ts);
      items := [Once(p)];
      OneItemTokens(p);
    } else {
      var i := ElementsSplit(ts);
      var p := ValueHasTree(ts[..i]);
      var rest := ElementsHaveTrees(ts[i + 1..]);
      items := [Once(p)] + rest;
      ItemsCons(Once(p), rest);
      OneItemTokens(p);
      assert ts == ts[..i] + [ValueSeparator] + ts[i + 1..];
    }
  }

  lemma OneItemTokens(p: Plain)
    ensures ItemsTokens([Once(p)]) == PlainTokens(p) == ItemTokens(Once(p))
  {
    hide PlainTokens;
    assert [Once(p)][..0] == [];
    assert SeparatedItems([]) == [];
  }

  lemma {:induction false} MemberHasTree(ts: seq<Token>) returns (m: Member)
    requires IsMember(ts)
    ensures IsJsonMember(m) && MemberTokens(m) == ts
    decreases |ts|, 2
  {
    var p := ValueHasTree(ts[2..]);
    m := Member([], ts[0].text, Plain(p));
    BareMember(m);
    assert ts == [ts[0], ts[1]] + ts[2..];
  }

  lemma NoMembersTokens()
    ensures MembersTokens([]) == []
  {
  }

  lemma {:induction false} MembersHaveTrees(ts: seq<Token>) returns (members: seq<Member>)
    requires AreMembers(ts)
    ensures members != [] && MembersTokens(members[..|members| - 1]) + MemberTokens(members[|members| - 1]) == ts
    ensures forall i :: 0 <= i < |members| ==> IsJsonMember(members[i])
    decreases |ts|, 3
  {
    hide *;
    if IsMember(ts) {
      var m := MemberHasTree(ts);
      members := [m];
      NoMembersTokens();
      assert [m][..0] == [];
    } else {
      var i := MembersSplit(ts);
      var m := MemberHasTree(ts[..i]);
      var rest := MembersHaveTrees(ts[i + 1..]);
      members := [m] + rest;
      MembersTokensCons(m, rest[..|rest| - 1]);
      assert members[..|members| - 1] == [m] + rest[..|rest| - 1];
      assert ts == ts[..i] + [ValueSeparator] + ts[i + 1..];
    }
  }

  // ---------------------------------------------------------------------------------------------
  // The frames decide the grammar

  lemma IsTextIff(ts: seq<Token>)
    ensures IsArray(ts) || IsObject(ts) <==> exists d: Document :: IsJsonText(d) && DocumentTokens(d) == ts
  {
    hide *;
    if IsArray(ts) || IsObject(ts) {
      RootIsValue(ts);
      var p := ValueHasTree(ts);
      BareDocument(p);
    }
    forall d: Document | IsJsonText(d) && DocumentTokens(d) == ts
      ensures IsArray(ts) || IsObject(ts)
    {
      TextIsTree(d);
      TreeIsValue(d.root);
    }
  }

  lemma RootIsValue(ts: seq<Token>)
    requires IsArray(ts) || IsObject(ts)
    ensures IsValue(ts)
  {
    hide IsArray;
    hide IsObject;
  }

  lemma BareDocument(p: Plain)
    requires IsJsonPlain(p) && IsRoot(p)
    ensures IsJsonText(Document([], p)) && DocumentTokens(Document([], p)) == PlainTokens(p)
  {
    hide PlainTokens;
    hide IsJsonPlain;
    hide IsRoot;
    assert AimTokens([]) == [];
  }

  lemma TextIsTree(d: Document)
    requires IsJsonText(d)
    ensures IsJsonPlain(d.root) && (d.root.ArrayT? || d.root.EmptyObjectT? || d.root.ObjectT?) && DocumentTokens(d) == PlainTokens(d.root)
  {
    hide PlainTokens;
    hide IsJsonPlain;
    assert AimTokens([]) == [];
  }

  /**
   Without scripts a text is done exactly on the arrays and objects of RFC 4627, and in progress exactly on what
   can still become one.
   */
  lemma AcceptsArraysAndObjects(ts: seq<Token>)
    requires ScriptFree(ts)
    ensures AfterTokens(ts).TDone? <==> IsArray(ts) || IsObject(ts)
    ensures TProgress(AfterTokens(ts)) <==> exists rest :: rest != [] && (IsArray(ts + rest) || IsObject(ts + rest))
  {
    hide *;
    AcceptsJsonTexts(ts);
    IsTextIff(ts);
    forall d: Document | IsJsonText(d) && ts < DocumentTokens(d)
      ensures exists rest :: rest != [] && (IsArray(ts + rest) || IsObject(ts + rest))
    {
      var rest := DocumentTokens(d)[|ts|..];
      assert ts + rest == DocumentTokens(d);
      IsTextIff(ts + rest);
      assert rest != [];
    }
    forall rest | rest != [] && (IsArray(ts + rest) || IsObject(ts + rest))
      ensures exists d: Document :: IsJsonText(d) && ts < DocumentTokens(d)
    {
      IsTextIff(ts + rest);
    }
  }

  // ---------------------------------------------------------------------------------------------
  // Scripts

  ghost predicate Asks<Node(!new)>(env: Env<Node>, ts: seq<Token>, d: Node, q: Query)
    requires env.Finite()
  {
    exists s :: Feed(StepScript, SElement, ts) == SDone(s) && ScriptQuery(env, s, d) == q
  }

  lemma ScriptAsks<Node(!new)>(env: Env<Node>, s: Script, d: Node)
    requires env.Finite()
    ensures Asks(env, ScriptTokens(s), d, ScriptQuery(env, s, d))
  {
    hide ScriptQuery;
    hide ScriptTokens;
    ScriptRuns(s);
    RunsFeed(StepScript, LiveScript, SElement, ScriptTokens(s), SDone(s));
  }

  /** Which part of a query each name of a script stands for. */
  lemma NamesOfScript<Node(!new)>(env: Env<Node>, d: Node, e: string, a: string, m: string)
    requires env.Finite()
    ensures Asks(env, [EndScript], d, Query(None, None, None, None))
    ensures Asks(env, [Name(e), EndScript], d, Query(Some(e), None, None, None))
    ensures Asks(env, [TokenSeparator, Name(a), EndScript], d, Query(None, Some(a), None, None))
    ensures Asks(env, [Name(e), TokenSeparator, Name(a), EndScript], d, Query(Some(e), Some(a), None, None))
    ensures Asks(env, [Name(m), BeginParameter, EndParameter, EndScript], d, Query(None, None, Some(m), None))
    ensures Asks(env, [TokenSeparator, Name(m), BeginParameter, EndParameter, EndScript], d, Query(None, None, Some(m), None))
    ensures Asks(env, [Name(e), TokenSeparator, Name(m), BeginParameter, EndParameter, EndScript], d, Query(Some(e), None, Some(m), None))
    ensures Asks(env, [TokenSeparator, Name(a), TokenSeparator, Name(m), BeginParameter, EndParameter, EndScript], d, Query(None, Some(a), Some(m), None))
    ensures Asks(env, [Name(e), TokenSeparator, Name(a), TokenSeparator, Name(m), BeginParameter, EndParameter, EndScript], d,
                 Query(Some(e), Some(a), Some(m), None))
  {
    hide Asks;
    ScriptAsks(env, Nothing, d);
    ScriptAsks(env, Element(e), d);
    ScriptAsks(env, Attribute(None, a), d);
    assert ScriptTokens(Attribute(None, a)) == [TokenSeparator, Name(a), EndScript];
    ScriptAsks(env, Attribute(Some(e), a), d);
    assert ScriptTokens(Attribute(Some(e), a)) == [Name(e), TokenSeparator, Name(a), EndScript];
    ScriptAsks(env, Call(Method(m), None), d);
    assert ScriptTokens(Call(Method(m), None)) == [Name(m), BeginParameter, EndParameter, EndScript];
    ScriptAsks(env, Call(OfElement(None, m), None), d);
    assert ScriptTokens(Call(OfElement(None, m), None)) == [TokenSeparator, Name(m), BeginParameter, EndParameter, EndScript];
    ScriptAsks(env, Call(OfElement(Some(e), m), None), d);
    assert ScriptTokens(Call(OfElement(Some(e), m), None)) == [Name(e), TokenSeparator, Name(m), BeginParameter, EndParameter, EndScript];
    ScriptAsks(env, Call(OfAttribute(None, a, m), None), d);
    assert ScriptTokens(Call(OfAttribute(None, a, m), None)) == [TokenSeparator, Name(a), TokenSeparator, Name(m), BeginParameter, EndParameter, EndScript];
    ScriptAsks(env, Call(OfAttribute(Some(e), a, m), None), d);
    assert ScriptTokens(Call(OfAttribute(Some(e), a, m), None)) == [Name(e), TokenSeparator, Name(a), TokenSeparator, Name(m), BeginParameter, EndParameter, EndScript];
  }

  /** A parameter between the parentheses is evaluated over the same domain and changes nothing else of the query. */
  lemma ParameterOfScript<Node(!new)>(env: Env<Node>, d: Node, target: Target, p: Template)
    requires env.Finite()
    ensures Asks(env, TargetTokens(target) + TemplateTokens(p) + [EndParameter, EndScript], d,
                 ScriptQuery(env, Call(target, None), d).(parameter := Some(Eval(env, p, d))))
  {
    hide Asks;
    hide Eval;
    hide TemplateTokens;
    hide TargetTokens;
    ScriptAsks(env, Call(target, Some(p)), d);
    TargetQueryIs(target, Some(Eval(env, p, d)));
  }
}
