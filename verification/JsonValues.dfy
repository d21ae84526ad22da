/** Serialized values are read back: the round trip through the frames. */
module JsonValues {
  import opened Wrappers
  import opened JsonTemplate
  import opened JsonEval
  import opened JsonGrammar

  /** `p` spells out `v`: no scripts, every member once, in any order. */
  ghost predicate Writes(p: Plain, v: Value) {
    match p
    case NullT => v == Null
    case BoolT(b) => v == Bool(b)
    case NumberT(n) => v == Number(n)
    case StringT(s) => v == String(s)
    case ArrayT(items) =>
      v.Array? && |items| == |v.elements|
      && forall i :: 0 <= i < |items| ==> items[i].Once? && Writes(items[i].plain, v.elements[i])
    case EmptyObjectT(aims) => aims == [] && v == Object(map[])
    case ObjectT(members, last) =>
      v.Object? && Distinct(members) && last.name !in Names(members) && v.members.Keys == Names(members) + {last.name}
      && WritesMember(last, v.members) && forall i :: 0 <= i < |members| ==> WritesMember(members[i], v.members)
  }

  ghost predicate WritesMember(m: Member, values: map<string, Value>) {
    m.aims == [] && m.body.Plain? && m.name in values && Writes(m.body.plain, values[m.name])
  }

  predicate Distinct(members: seq<Member>) {
    forall i, j :: 0 <= i < j < |members| ==> members[i].name != members[j].name
  }

  function Names(members: seq<Member>): set<string> {
    set i | 0 <= i < |members| :: members[i].name
  }

  lemma {:induction false} ReadsBack<Node(!new)>(env: Env<Node>, p: Plain, v: Value, d: Node)
    requires env.Finite() && Writes(p, v)
    ensures EvalPlain(env, p, d) == v
    decreases p
  {
    match p
    case ArrayT(items) => ItemsReadBack(env, items, v.elements, d);
    case ObjectT(members, last) =>
      MembersReadBack(env, members, v.members, d);
      MemberReadsBack(env, last, v.members, d);
      var read := EvalMembers(env, members, d).0;
      assert Insert(read, last.name, v.members[last.name]) == v.members;
    case _ =>
  }

  lemma {:induction false} ItemsReadBack<Node(!new)>(env: Env<Node>, items: seq<Item>, values: seq<Value>, d: Node)
    requires env.Finite() && |items| == |values|
    requires forall i :: 0 <= i < |items| ==> items[i].Once? && Writes(items[i].plain, values[i])
    ensures EvalItems(env, items, d) == values
    decreases items
  {
    if items != [] {
      var n := |items| - 1;
      ItemsReadBack(env, items[..n], values[..n], d);
      ItemReadsBack(env, items[n], values[n], d);
    }
  }

  lemma {:induction false} ItemReadsBack<Node(!new)>(env: Env<Node>, i: Item, v: Value, d: Node)
    requires env.Finite() && i.Once? && Writes(i.plain, v)
    ensures EvalItem(env, i, d) == [v]
    decreases i
  {
    ReadsBack(env, i.plain, v, d);
  }

  lemma {:induction false} MemberReadsBack<Node(!new)>(env: Env<Node>, m: Member, values: map<string, Value>, d: Node)
    requires env.Finite() && WritesMember(m, values)
    ensures Eval(env, m.body, Aim(env, m.aims, d, d)) == values[m.name]
    decreases m
  {
    ReadsBack(env, m.body.plain, values[m.name], d);
  }

  lemma {:induction false} MembersReadBack<Node(!new)>(env: Env<Node>, members: seq<Member>, values: map<string, Value>, d: Node)
    requires env.Finite() && Distinct(members)
    requires forall i :: 0 <= i < |members| ==> WritesMember(members[i], values)
    ensures EvalMembers(env, members, d).1 == d
    ensures EvalMembers(env, members, d).0.Keys == Names(members)
    ensures Agrees(EvalMembers(env, members, d).0, values)
    decreases members
  {
    if members != [] {
      var n := |members| - 1;
      var front, m := members[..n], members[n];
      MembersReadBack(env, front, values, d);
      MemberReadsBack(env, m, values, d);
      assert members == front + [m];
      NamesSnoc(front, m);
    }
  }

  ghost predicate Agrees(read: map<string, Value>, values: map<string, Value>) {
    forall n :: n in read ==> n in values && read[n] == values[n]
  }

  lemma NamesSnoc(front: seq<Member>, m: Member)
    ensures Names(front + [m]) == Names(front) + {m.name}
    ensures Distinct(front + [m]) ==> m.name !in Names(front)
  {
    var all := front + [m];
    forall x | x in Names(front) + {m.name} ensures x in Names(all) {
      var i := if x == m.name then |front| else var i :| 0 <= i < |front| && front[i].name == x; i;
      assert all[i].name == x;
    }
    forall x | x in Names(all) ensures x in Names(front) + {m.name} {
      var i :| 0 <= i < |all| && all[i].name == x;
      assert i < |front| ==> front[i].name == x;
    }
    forall i | 0 <= i < |front| ensures Distinct(all) ==> front[i].name != m.name {
      assert all[i] == front[i] && all[|front|] == m;
    }
  }

  /** The keys of a map in some order. */
  ghost function Order(keys: set<string>): (r: seq<string>)
    ensures forall k :: k in r <==> k in keys
    ensures forall i, j :: 0 <= i < j < |r| ==> r[i] != r[j]
  {
    if keys == {} then [] else var k :| k in keys; Order(keys - {k}) + [k]
  }

  /** Every value has a spelling, so the round trip below speaks of every array and object. */
  ghost function Spelling(v: Value): Plain
    decreases v
  {
    match v
    case Null => NullT
    case Bool(b) => BoolT(b)
    case Number(n) => NumberT(n)
    case String(s) => StringT(s)
    case Array(elements) => ArrayT(seq(|elements|, i requires 0 <= i < |elements| => Once(Spelling(elements[i]))))
    case Object(values) =>
      var keys := Order(values.Keys);
      if keys == [] then EmptyObjectT([])
      else
        var members := seq(|keys|, i requires 0 <= i < |keys| => Member([], keys[i], Plain(Spelling(values[keys[i]]))));
        ObjectT(members[..|keys| - 1], members[|keys| - 1])
  }

  lemma {:induction false} SpellingWrites(v: Value)
    ensures Writes(Spelling(v), v)
    decreases v
  {
    match v
    case Array(elements) =>
      forall i | 0 <= i < |elements| ensures Writes(Spelling(elements[i]), elements[i]) {
        SpellingWrites(elements[i]);
      }
    case Object(values) =>
      var keys := Order(values.Keys);
      if keys == [] {
        assert values == map[];
      } else {
        forall k | k in values ensures Writes(Spelling(values[k]), values[k]) {
          SpellingWrites(values[k]);
        }
        ObjectSpelling(values, keys);
      }
    case _ =>
  }

  lemma ObjectSpelling(values: map<string, Value>, keys: seq<string>)
    requires keys == Order(values.Keys) && keys != []
    requires forall k :: k in values ==> Writes(Spelling(values[k]), values[k])
    ensures Writes(Spelling(Object(values)), Object(values))
  {
    var members := seq(|keys|, i requires 0 <= i < |keys| => Member([], keys[i], Plain(Spelling(values[keys[i]]))));
    var front, last := members[..|keys| - 1], members[|keys| - 1];
    assert Spelling(Object(values)) == ObjectT(front, last);
    forall i | 0 <= i < |members| ensures WritesMember(members[i], values) {
      assert keys[i] in values;
    }
    SpelledNames(keys, front, last);
    assert Names(front) + {last.name} == values.Keys;
    WritesObject(front, last, values);
  }

  lemma WritesObject(front: seq<Member>, last: Member, values: map<string, Value>)
    requires Distinct(front) && last.name !in Names(front) && values.Keys == Names(front) + {last.name}
    requires WritesMember(last, values) && forall i :: 0 <= i < |front| ==> WritesMember(front[i], values)
    ensures Writes(ObjectT(front, last), Object(values))
  {
  }

  lemma SpelledNames(keys: seq<string>, members: seq<Member>, last: Member)
    requires |keys| == |members| + 1 && keys[|members|] == last.name
    requires forall i :: 0 <= i < |members| ==> members[i].name == keys[i]
    requires forall i, j :: 0 <= i < j < |keys| ==> keys[i] != keys[j]
    ensures forall k :: k in Names(members) + {last.name} <==> k in keys
    ensures Distinct(members) && last.name !in Names(members)
  {
    forall k | k in keys ensures k in Names(members) + {last.name} {
      var i :| 0 <= i < |keys| && keys[i] == k;
      assert i < |members| ==> members[i].name == k;
    }
  }

  /** Whatever spells out an array or an object, a text reads it back. */
  lemma RoundTrip<Node(!new)>(env: Env<Node>, p: Plain, v: Value, d: Node)
    requires env.Finite() && Writes(p, v) && (v.Array? || v.Object?)
    ensures AfterTokens(PlainTokens(p)) == TDone(Document([], p))
    ensures EvalDocument(env, Document([], p), d) == v
  {
    DoneIffDocument(PlainTokens(p), Document([], p));
    assert DocumentTokens(Document([], p)) == PlainTokens(p);
    ReadsBack(env, p, v, d);
  }
}
