/** What a template evaluates to over a domain: the reference the frames are held against. */
module JsonEval {
  import opened Wrappers
  import opened JsonTemplate

  // A script ready to run (Json.Script.h): names, and its parameter already evaluated.
  datatype Query = Query(element: Option<string>, attribute: Option<string>, method_: Option<string>, parameter: Option<Value>)

  /**
   The two overloads of Script::Execute, which search an HTML document.  `find` gives the next
   matching node after a node (or the first); `text` gives selected text; `left` bounds the matches
   that are still to come.
   */
  datatype Env<!Node(!new)> = Env(
    find: (Query, Node, Option<Node>) -> Option<Node>,
    text: (Query, Node) -> Option<string>,
    left: (Query, Node, Option<Node>) -> nat)
  {
    ghost predicate Finite() {
      forall q, d, after :: find(q, d, after).Some? ==> left(q, d, find(q, d, after)) < left(q, d, after)
    }
  }

  /** The successive matches of a query below `d`, after `after`. */
  ghost function Matches<Node(!new)>(env: Env<Node>, q: Query, d: Node, after: Option<Node>): seq<Node>
    requires env.Finite()
    decreases env.left(q, d, after)
  {
    match env.find(q, d, after)
    case None => []
    case Some(n) => [n] + Matches(env, q, d, Some(n))
  }

  function TargetQuery(t: Target, parameter: Option<Value>): Query {
    match t
    case Method(m) => Query(None, None, Some(m), parameter)
    case OfElement(e, m) => Query(e, None, Some(m), parameter)
    case OfAttribute(e, a, m) => Query(e, Some(a), Some(m), parameter)
  }

  ghost function ScriptQuery<Node(!new)>(env: Env<Node>, s: Script, d: Node): Query
    requires env.Finite()
    decreases s
  {
    match s
    case Nothing => Query(None, None, None, None)
    case Element(name) => Query(Some(name), None, None, None)
    case Attribute(e, a) => Query(e, Some(a), None, None)
    case Call(target, None) => TargetQuery(target, None)
    case Call(target, Some(p)) => TargetQuery(target, Some(Eval(env, p, d)))
  }

  /** A script in value position: the selected text, or null. */
  function Selection<Node(!new)>(env: Env<Node>, q: Query, d: Node): Value {
    match env.text(q, d) case Some(s) => String(s) case None => Null
  }

  ghost function Eval<Node(!new)>(env: Env<Node>, t: Template, d: Node): Value
    requires env.Finite()
    decreases t, 0
  {
    match t
    case Selected(s) => Selection(env, ScriptQuery(env, s, d), d)
    case Plain(p) => EvalPlain(env, p, d)
  }

  ghost function EvalPlain<Node(!new)>(env: Env<Node>, p: Plain, d: Node): Value
    requires env.Finite()
    decreases p
  {
    match p
    case NullT => Null
    case BoolT(b) => Bool(b)
    case NumberT(n) => Number(n)
    case StringT(s) => String(s)
    case ArrayT(items) => Array(EvalItems(env, items, d))
    case EmptyObjectT(_) => Object(map[])
    case ObjectT(members, last) => Object(ThenMember(env, EvalMembers(env, members, d), last, d).0)
  }

  /** A plain element contributes its value over `d`; a governed one its value over each match. */
  ghost function EvalItem<Node(!new)>(env: Env<Node>, i: Item, d: Node): seq<Value>
    requires env.Finite()
    decreases i
  {
    match i
    case Once(p) => [EvalPlain(env, p, d)]
    case PerMatch(s, body) => EvalAt(env, body, Matches(env, ScriptQuery(env, s, d), d, None))
  }

  ghost function EvalAt<Node(!new)>(env: Env<Node>, t: Template, nodes: seq<Node>): seq<Value>
    requires env.Finite()
    decreases t, 1, |nodes|
  {
    if nodes == [] then [] else [Eval(env, t, nodes[0])] + EvalAt(env, t, nodes[1..])
  }

  ghost function EvalItems<Node(!new)>(env: Env<Node>, items: seq<Item>, d: Node): seq<Value>
    requires env.Finite()
    decreases items
  {
    if items == [] then [] else EvalItems(env, items[..|items| - 1], d) + EvalItem(env, items[|items| - 1], d)
  }

  /** The domain of the following members: what the last script finds, else the object's own. */
  ghost function Aim<Node(!new)>(env: Env<Node>, aims: seq<Script>, d: Node, current: Node): Node
    requires env.Finite()
    decreases aims
  {
    if aims == [] then current
    else
      match env.find(ScriptQuery(env, aims[|aims| - 1], d), d, None)
      case Some(n) => n
      case None => d
  }

  /** One more member, given the members so far and the domain the next member inherits. */
  ghost function ThenMember<Node(!new)>(env: Env<Node>, before: (map<string, Value>, Node), m: Member, d: Node): (map<string, Value>, Node)
    requires env.Finite()
    decreases m
  {
    var aimed := Aim(env, m.aims, d, before.1);
    (Insert(before.0, m.name, Eval(env, m.body, aimed)), aimed)
  }

  ghost function EvalMembers<Node(!new)>(env: Env<Node>, members: seq<Member>, d: Node): (map<string, Value>, Node)
    requires env.Finite()
    decreases members
  {
    if members == [] then (map[], d)
    else
      ThenMember(env, EvalMembers(env, members[..|members| - 1], d), members[|members| - 1], d)
  }

  /** A member name that is already present keeps its first value. */
  function Insert(members: map<string, Value>, name: string, v: Value): map<string, Value> {
    if name in members then members else members[name := v]
  }

  lemma InsertKeeps(members: map<string, Value>, name: string, v: Value)
    ensures var r := Insert(members, name, v);
            && r.Keys == members.Keys + {name} && (forall n :: n in members ==> r[n] == members[n]) && (name !in members ==> r[name] == v)
  {
  }

  /** A script before the root replaces the domain for everything after it, if it finds anything. */
  ghost function RootDomain<Node(!new)>(env: Env<Node>, aims: seq<Script>, d: Node): Node
    requires env.Finite()
    decreases aims
  {
    if aims == [] then d
    else
      var before := RootDomain(env, aims[..|aims| - 1], d);
      match env.find(ScriptQuery(env, aims[|aims| - 1], before), before, None)
      case Some(n) => n
      case None => before
  }

  ghost function EvalDocument<Node(!new)>(env: Env<Node>, doc: Document, d: Node): Value
    requires env.Finite()
  {
    EvalPlain(env, doc.root, RootDomain(env, doc.aims, d))
  }

  lemma TargetQueryIs(t: Target, parameter: Option<Value>)
    ensures TargetQuery(t, parameter) == TargetQuery(t, None).(parameter := parameter)
  {
  }

  lemma SelectionIs<Node(!new)>(env: Env<Node>, s: Script, d: Node, v: Value)
    requires env.Finite()
    requires var text := env.text(ScriptQuery(env, s, d), d); v == if text.Some? then String(text.value) else Null
    ensures v == Eval(env, Selected(s), d)
  {
  }

  lemma EvalOfPlain<Node(!new)>(env: Env<Node>, p: Plain, d: Node)
    requires env.Finite()
    ensures Eval(env, Plain(p), d) == EvalPlain(env, p, d)
    ensures p.ArrayT? ==> EvalPlain(env, p, d) == Array(EvalItems(env, p.elements, d))
  {
  }

  lemma EvalOfAtom<Node(!new)>(env: Env<Node>, d: Node)
    requires env.Finite()
    ensures Eval(env, Plain(NullT), d) == Null
    ensures forall b :: Eval(env, Plain(BoolT(b)), d) == Bool(b)
    ensures forall n :: Eval(env, Plain(NumberT(n)), d) == Number(n)
    ensures forall s :: Eval(env, Plain(StringT(s)), d) == String(s)
  {
  }

  lemma RootDomainSnoc<Node(!new)>(env: Env<Node>, aims: seq<Script>, s: Script, d: Node)
    requires env.Finite()
    ensures var before := RootDomain(env, aims, d);
            var found := env.find(ScriptQuery(env, s, before), before, None);
            RootDomain(env, aims + [s], d) == if found.Some? then found.value else before
  {
    assert (aims + [s])[..|aims|] == aims;
  }

  lemma OnceEval<Node(!new)>(env: Env<Node>, p: Plain, d: Node)
    requires env.Finite()
    ensures EvalItem(env, Once(p), d) == [Eval(env, Plain(p), d)]
  {
  }

  lemma PerMatchEval<Node(!new)>(env: Env<Node>, s: Script, body: Template, d: Node)
    requires env.Finite()
    ensures EvalItem(env, PerMatch(s, body), d) == EvalAt(env, body, Matches(env, ScriptQuery(env, s, d), d, None))
  {
  }

  /** The values over the matches after a node: that of the next one, and those over the matches after it. */
  lemma NextMatch<Node(!new)>(env: Env<Node>, q: Query, d: Node, after: Option<Node>, t: Template)
    requires env.Finite()
    ensures var next := env.find(q, d, after);
            EvalAt(env, t, Matches(env, q, d, after))
              == if next.Some? then [Eval(env, t, next.value)] + EvalAt(env, t, Matches(env, q, d, next)) else []
    ensures env.find(q, d, after).Some? ==> env.left(q, d, env.find(q, d, after)) < env.left(q, d, after)
  {
    hide Eval;
    if env.find(q, d, after).Some? {
      assert Matches(env, q, d, after)[1..] == Matches(env, q, d, env.find(q, d, after));
    }
  }

  /** A script before a member starts from the object's own domain, whatever earlier scripts found. */
  lemma AimSnoc<Node(!new)>(env: Env<Node>, aims: seq<Script>, s: Script, d: Node, current: Node)
    requires env.Finite()
    ensures var found := env.find(ScriptQuery(env, s, d), d, None);
            Aim(env, aims + [s], d, current) == if found.Some? then found.value else d
  {
  }

  lemma OneMoreMember<Node(!new)>(env: Env<Node>, before: seq<Member>, m: Member, d: Node)
    requires env.Finite()
    ensures var read, aimed := EvalMembers(env, before, d).0, Aim(env, m.aims, d, EvalMembers(env, before, d).1);
            && EvalMembers(env, before + [m], d) == (Insert(read, m.name, Eval(env, m.body, aimed)), aimed)
            && EvalPlain(env, ObjectT(before, m), d) == Object(EvalMembers(env, before + [m], d).0)
  {
    assert (before + [m])[..|before|] == before;
  }
}
