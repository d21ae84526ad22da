/**
 What evaluation comes to, member by member, match by match and name by name: the evaluator read without its
 recursion.
 */
module JsonMeaning {
  import opened Wrappers
  import opened JsonTemplate
  import opened JsonEval

  // ---------------------------------------------------------------------------------------------
  // Members

  // What a member's scripts aim at: the first match of the last of them, or the object's own domain.
  ghost function Found<Node(!new)>(env: Env<Node>, aims: seq<Script>, d: Node): Node
    requires env.Finite() && aims != []
  {
    var match_ := env.find(ScriptQuery(env, aims[|aims| - 1], d), d, None);
    if match_.Some? then match_.value else d
  }

  // The domain in force at a member: what the nearest scripts before it aim at, or the object's own domain.
  ghost predicate IsAim<Node(!new)>(env: Env<Node>, members: seq<Member>, d: Node, i: int, a: Node)
    requires env.Finite() && -1 <= i < |members|
  {
    && ((forall j :: 0 <= j <= i ==> members[j].aims == []) ==> a == d)
    && forall j :: 0 <= j <= i && members[j].aims != [] && (forall k :: j < k <= i ==> members[k].aims == []) ==> a == Found(env, members[j].aims, d)
  }

  lemma AimIs<Node(!new)>(env: Env<Node>, aims: seq<Script>, d: Node, current: Node)
    requires env.Finite()
    ensures Aim(env, aims, d, current) == if aims == [] then current else Found(env, aims, d)
  {
  }

  lemma {:induction false} AimInForce<Node(!new)>(env: Env<Node>, members: seq<Member>, d: Node, n: nat)
    requires env.Finite() && n <= |members|
    ensures IsAim(env, members, d, n - 1, EvalMembers(env, members[..n], d).1)
  {
    if n == 0 {
      assert members[..0] == [];
    } else {
      AimInForce(env, members, d, n - 1);
      assert members[..n - 1] + [members[n - 1]] == members[..n];
      OneMoreMember(env, members[..n - 1], members[n - 1], d);
      AimIs(env, members[n - 1].aims, d, EvalMembers(env, members[..n - 1], d).1);
    }
  }

  lemma OneAim<Node(!new)>(env: Env<Node>, members: seq<Member>, d: Node, i: int, a: Node, b: Node)
    requires env.Finite() && -1 <= i < |members| && IsAim(env, members, d, i, a) && IsAim(env, members, d, i, b)
    ensures a == b
  {
    if i >= 0 && members[i].aims == [] {
      AimBefore(env, members, d, i, a);
      AimBefore(env, members, d, i, b);
      OneAim(env, members, d, i - 1, a, b);
    }
  }

  lemma AimBefore<Node(!new)>(env: Env<Node>, members: seq<Member>, d: Node, i: int, a: Node)
    requires env.Finite() && 0 <= i < |members| && IsAim(env, members, d, i, a) && members[i].aims == []
    ensures IsAim(env, members, d, i - 1, a)
  {
  }

  ghost predicate IsFirst(members: seq<Member>, i: int, name: string) {
    0 <= i < |members| && members[i].name == name && forall j :: 0 <= j < i ==> members[j].name != name
  }

  /**
   An object has exactly the names of its members; of members of one name the first counts, with the value of its
   template over the domain in force there.
   */
  lemma {:induction false} MembersByName<Node(!new)>(env: Env<Node>, members: seq<Member>, d: Node, name: string)
    requires env.Finite()
    ensures name in EvalMembers(env, members, d).0 <==> exists i :: 0 <= i < |members| && members[i].name == name
    ensures forall i, a :: IsFirst(members, i, name) && IsAim(env, members, d, i, a) ==>
              name in EvalMembers(env, members, d).0 && EvalMembers(env, members, d).0[name] == Eval(env, members[i].body, a)
  {
    hide *;
    MembersUpTo(env, members, d, name, |members|);
    assert members[..|members|] == members;
    FirstOfName(members, name);
    forall i, a | IsFirst(members, i, name) && IsAim(env, members, d, i, a)
      ensures name in EvalMembers(env, members, d).0 && EvalMembers(env, members, d).0[name] == Eval(env, members[i].body, a)
    {
      AimInForce(env, members, d, i + 1);
      OneAim(env, members, d, i, a, EvalMembers(env, members[..i + 1], d).1);
    }
  }

  lemma FirstOfName(members: seq<Member>, name: string)
    ensures forall i :: IsFirst(members, i, name) ==> 0 <= i < |members| && members[i].name == name
    ensures forall i, j :: IsFirst(members, i, name) && IsFirst(members, j, name) ==> i == j
  {
  }

  lemma {:induction false} MembersUpTo<Node(!new)>(env: Env<Node>, members: seq<Member>, d: Node, name: string, n: nat)
    requires env.Finite() && n <= |members|
    ensures name in EvalMembers(env, members[..n], d).0 <==> exists i :: 0 <= i < n && members[i].name == name
    ensures forall i :: IsFirst(members, i, name) && i < n ==>
              && name in EvalMembers(env, members[..n], d).0
              && EvalMembers(env, members[..n], d).0[name] == Eval(env, members[i].body, EvalMembers(env, members[..i + 1], d).1)
  {
    hide Eval;
    hide EvalMembers;
    hide Aim;
    if n == 0 {
      assert members[..0] == [];
      NoMembers(env, d);
    } else {
      MembersUpTo(env, members, d, name, n - 1);
      var m := members[n - 1];
      assert members[..n - 1] + [m] == members[..n];
      OneMoreMember(env, members[..n - 1], m, d);
    }
  }

  lemma NoMembers<Node(!new)>(env: Env<Node>, d: Node)
    requires env.Finite()
    ensures EvalMembers(env, [], d) == (map[], d)
  {
  }

  /** The same for a whole object. */
  lemma ObjectByName<Node(!new)>(env: Env<Node>, members: seq<Member>, last: Member, d: Node, name: string)
    requires env.Finite()
    ensures EvalPlain(env, ObjectT(members, last), d).Object?
    ensures var all, read := members + [last], EvalPlain(env, ObjectT(members, last), d).members;
            && (name in read <==> exists i :: 0 <= i < |all| && all[i].name == name)
            && forall i, a :: IsFirst(all, i, name) && IsAim(env, all, d, i, a) ==> name in read && read[name] == Eval(env, all[i].body, a)
  {
    hide *;
    OneMoreMember(env, members, last, d);
    MembersByName(env, members + [last], d, name);
    FirstOfName(members + [last], name);
  }

  // The value is an object with the names of the members, each with the value of its first member.
  ghost predicate ReadsByName<Node(!new)>(env: Env<Node>, members: seq<Member>, d: Node, v: Value)
    requires env.Finite()
  {
    && v.Object?
    && (forall name :: name in v.members <==> exists i :: 0 <= i < |members| && members[i].name == name)
    && forall name, i, a :: IsFirst(members, i, name) && IsAim(env, members, d, i, a) && name in v.members ==> v.members[name] == Eval(env, members[i].body, a)
  }

  lemma ObjectReadsByName<Node(!new)>(env: Env<Node>, members: seq<Member>, last: Member, d: Node)
    requires env.Finite()
    ensures ReadsByName(env, members + [last], d, EvalPlain(env, ObjectT(members, last), d))
  {
    hide EvalPlain;
    hide Eval;
    hide IsAim;
    hide IsFirst;
    var all, v := members + [last], EvalPlain(env, ObjectT(members, last), d);
    FirstInRange(all);
    ObjectByName(env, members, last, d, "");
    forall name: string
      ensures name in v.members <==> exists i :: 0 <= i < |all| && all[i].name == name
      ensures forall i, a :: IsFirst(all, i, name) && IsAim(env, all, d, i, a) && name in v.members ==> v.members[name] == Eval(env, all[i].body, a)
    {
      ObjectByName(env, members, last, d, name);
    }
  }

  lemma FirstInRange(members: seq<Member>)
    ensures forall i, name :: IsFirst(members, i, name) ==> 0 <= i < |members|
  {
  }

  /** What a whole document with an object for its root comes to, name by name. */
  lemma DocumentByName<Node(!new)>(env: Env<Node>, doc: Document, d: Node)
    requires env.Finite()
    ensures doc.root.ObjectT? ==> ReadsByName(env, doc.root.members + [doc.root.last], RootDomain(env, doc.aims, d), EvalDocument(env, doc, d))
  {
    hide EvalPlain;
    hide RootDomain;
    hide ReadsByName;
    if doc.root.ObjectT? {
      ObjectReadsByName(env, doc.root.members, doc.root.last, RootDomain(env, doc.aims, d));
    }
  }

  // ---------------------------------------------------------------------------------------------
  // Matches

  // The matches of a query in order: the first, then after each the next, until there is none.
  ghost predicate AreMatches<Node(!new)>(env: Env<Node>, q: Query, d: Node, nodes: seq<Node>) {
    && (forall i :: 0 <= i < |nodes| ==> env.find(q, d, if i == 0 then None else Some(nodes[i - 1])) == Some(nodes[i]))
    && env.find(q, d, if nodes == [] then None else Some(nodes[|nodes| - 1])) == None
  }

  /** A scripted element stands for one value per match, in the order of the matches. */
  lemma ItemPerMatch<Node(!new)>(env: Env<Node>, s: Script, body: Template, d: Node, nodes: seq<Node>)
    requires env.Finite() && AreMatches(env, ScriptQuery(env, s, d), d, nodes)
    ensures |EvalItem(env, PerMatch(s, body), d)| == |nodes|
    ensures forall i :: 0 <= i < |nodes| ==> EvalItem(env, PerMatch(s, body), d)[i] == Eval(env, body, nodes[i])
  {
    hide *;
    PerMatchEval(env, s, body, d);
    MatchesAre(env, ScriptQuery(env, s, d), d, nodes);
    ValueAtEach(env, body, nodes);
  }

  lemma MatchesAre<Node(!new)>(env: Env<Node>, q: Query, d: Node, nodes: seq<Node>)
    requires env.Finite() && AreMatches(env, q, d, nodes)
    ensures Matches(env, q, d, None) == nodes
  {
    MatchesFrom(env, q, d, nodes, 0);
    assert nodes[0..] == nodes;
  }

  lemma {:induction false} MatchesFrom<Node(!new)>(env: Env<Node>, q: Query, d: Node, nodes: seq<Node>, i: nat)
    requires env.Finite() && AreMatches(env, q, d, nodes) && i <= |nodes|
    ensures Matches(env, q, d, if i == 0 then None else Some(nodes[i - 1])) == nodes[i..]
    decreases |nodes| - i
  {
    if i < |nodes| {
      MatchesFrom(env, q, d, nodes, i + 1);
      assert nodes[i..] == [nodes[i]] + nodes[i + 1..];
    }
  }

  lemma {:induction false} ValueAtEach<Node(!new)>(env: Env<Node>, t: Template, nodes: seq<Node>)
    requires env.Finite()
    ensures |EvalAt(env, t, nodes)| == |nodes| && forall i :: 0 <= i < |nodes| ==> EvalAt(env, t, nodes)[i] == Eval(env, t, nodes[i])
  {
    hide Eval;
    if nodes != [] {
      ValueAtEach(env, t, nodes[1..]);
    }
  }

  /** An array holds the values of its elements one after the other. */
  lemma {:induction false} ItemsInOrder<Node(!new)>(env: Env<Node>, before: seq<Item>, items: seq<Item>, d: Node)
    requires env.Finite()
    ensures EvalItems(env, before + items, d) == EvalItems(env, before, d) + EvalItems(env, items, d)
    ensures forall i :: EvalItems(env, [i], d) == EvalItem(env, i, d)
    decreases |items|
  {
    hide EvalItem;
    forall i: Item
      ensures EvalItems(env, [i], d) == EvalItem(env, i, d)
    {
      assert [i][..0] == [];
      assert EvalItems(env, [], d) == [];
    }
    if items == [] {
      assert before + items == before;
    } else {
      var last := |items| - 1;
      ItemsInOrder(env, before, items[..last], d);
      assert (before + items)[..|before + items| - 1] == before + items[..last];
    }
  }

  // ---------------------------------------------------------------------------------------------
  // Scripts before the root

  /** Scripts before the root act one after the other, each on the domain the ones before it have found. */
  lemma {:induction false} RootDomainsCompose<Node(!new)>(env: Env<Node>, first: seq<Script>, then_: seq<Script>, d: Node)
    requires env.Finite()
    ensures RootDomain(env, first + then_, d) == RootDomain(env, then_, RootDomain(env, first, d))
    ensures forall s :: RootDomain(env, [s], d) ==
              var match_ := env.find(ScriptQuery(env, s, d), d, None); if match_.Some? then match_.value else d
    decreases |then_|
  {
    hide ScriptQuery;
    forall s: Script
      ensures RootDomain(env, [s], d) == var match_ := env.find(ScriptQuery(env, s, d), d, None); if match_.Some? then match_.value else d
    {
      assert [s][..0] == [];
      assert RootDomain(env, [], d) == d;
    }
    if then_ == [] {
      assert first + then_ == first;
    } else {
      var last := |then_| - 1;
      RootDomainsCompose(env, first, then_[..last], d);
      assert (first + then_)[..|first + then_| - 1] == first + then_[..last];
    }
  }
}
