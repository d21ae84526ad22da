/**
 The list of active formatting elements and its markers, and how the markers stay in step with the
 elements on the stack that were opened with one.
 */
module HtmlFormatting {
  import opened HtmlNames
  import opened HtmlStack

  // `id` is the identity of the entry: an entry keeps it when its element is replaced.
  datatype Entry =
    | Marker(id: NodeId)
    | Formatting(id: NodeId, element: Element, tag: Tag)

  type Entries = seq<Entry>

  // The entries have identities and elements of their own, and every stretch between markers holds at most
  // three of a family.
  ghost predicate WellFormed(active: Entries) {
    && Ark(active)
    && (forall p, q :: 0 <= p < q < |active| ==> active[p].id != active[q].id)
    && (forall p, q :: 0 <= p < q < |active| && active[p].Formatting? && active[q].Formatting? ==> active[p].element != active[q].element)
    && (forall p :: 0 <= p < |active| && active[p].Formatting? ==> OwnElement(active[p]))
  }

  // The element of an entry was created for the entry's token, the start tag of a formatting element.
  predicate OwnElement(entry: Entry)
    requires entry.Formatting?
  {
    IsFormatting(entry.tag.name) && entry.element.name == entry.tag.name && entry.element.attributes == entry.tag.attributes
  }

  predicate InList(e: Element, active: Entries) {
    exists p :: 0 <= p < |active| && active[p].Formatting? && active[p].element == e
  }

  lemma InListOfInit(e: Element, active: Entries)
    requires active != []
    ensures InList(e, active) <==> InList(e, active[..|active| - 1]) || (active[|active| - 1].Formatting? && active[|active| - 1].element == e)
  {
    var init := active[..|active| - 1];
    assert forall p :: 0 <= p < |init| ==> init[p] == active[p];
  }

  // The place of the first entry for e, or -1.
  function EntryOf(active: Entries, e: Element): (q: int)
    ensures -1 <= q < |active|
    ensures q >= 0 <==> InList(e, active)
    ensures q >= 0 ==> active[q].Formatting? && active[q].element == e
    ensures q >= 0 ==> forall i :: 0 <= i < q ==> !(active[i].Formatting? && active[i].element == e)
  {
    if active == [] then -1
    else
      var init, last := active[..|active| - 1], active[|active| - 1];
      assert InList(e, active) <==> InList(e, init) || (last.Formatting? && last.element == e) by { InListOfInit(e, active); }
      var q := EntryOf(init, e);
      if q >= 0 then q else if last.Formatting? && last.element == e then |active| - 1 else -1
  }

  // The first entry with the identity, or -1.
  function PlaceOf(active: Entries, id: NodeId): (p: int)
    ensures -1 <= p < |active|
    ensures p >= 0 ==> active[p].id == id
    ensures forall i :: 0 <= i < (if p >= 0 then p else |active|) ==> active[i].id != id
  {
    if active == [] then -1
    else
      var p := PlaceOf(active[..|active| - 1], id);
      if p >= 0 then p else if active[|active| - 1].id == id then |active| - 1 else -1
  }

  // ---------------------------------------------------------------------------------------------
  // Counting

  function Marks(active: Entries): nat {
    if active == [] then 0 else Marks(active[..|active| - 1]) + if active[|active| - 1].Marker? then 1 else 0
  }

  function Takers(open: Stack): nat {
    if open == [] then 0 else Takers(Below(open)) + if TakesMarker(Top(open).name) then 1 else 0
  }

  lemma {:induction false} MarksAdd(a: Entries, b: Entries)
    ensures Marks(a + b) == Marks(a) + Marks(b)
  {
    if b == [] {
      assert a + b == a;
    } else {
      MarksAdd(a, b[..|b| - 1]);
      assert (a + b)[..|a + b| - 1] == a + b[..|b| - 1];
    }
  }

  lemma {:induction false} TakersAdd(a: Stack, b: Stack)
    ensures Takers(a + b) == Takers(a) + Takers(b)
  {
    if b == [] {
      assert a + b == a;
    } else {
      TakersAdd(a, Below(b));
      assert Below(a + b) == a + Below(b);
    }
  }

  lemma MarksFrom(active: Entries, p: nat, q: nat)
    requires p <= q <= |active|
    ensures Marks(active[p..]) == Marks(active[p..q]) + Marks(active[q..])
  {
    MarksAdd(active[p..q], active[q..]);
    assert active[p..q] + active[q..] == active[p..];
  }

  lemma TakersFrom(open: Stack, s: nat, t: nat)
    requires s <= t <= |open|
    ensures Takers(open[s..]) == Takers(open[s..t]) + Takers(open[t..])
  {
    TakersAdd(open[s..t], open[t..]);
    assert open[s..t] + open[t..] == open[s..];
  }

  lemma OneMarker(entry: Entry)
    ensures Marks([entry]) == if entry.Marker? then 1 else 0
  {
    assert [entry][..0] == [];
  }

  lemma OneTaker(e: Element)
    ensures Takers([e]) == if TakesMarker(e.name) then 1 else 0
  {
    assert Below([e]) == [];
  }

  lemma {:induction false} NoTakers(open: Stack)
    ensures Takers(open) == 0 <==> forall e :: e in open ==> !TakesMarker(e.name)
  {
    if open != [] {
      NoTakers(Below(open));
      assert open == Below(open) + [Top(open)];
    }
  }

  // ---------------------------------------------------------------------------------------------
  // Counting markers and the elements that take them

  // Counted from the end, there are at least as many markers in the list as elements on the stack
  // that take one, and an entry that is still open has at least as many markers after it as there
  // are such elements above its own.
  ghost predicate Counted(open: Stack, active: Entries) {
    && Takers(open) <= Marks(active)
    && forall p, s :: 0 <= p < |active| && 0 <= s < |open| && active[p].Formatting? && active[p].element == open[s] ==>
        Takers(open[s..]) <= Marks(active[p..])
  }

  lemma CountedCut(open: Stack, active: Entries, k: nat)
    requires Counted(open, active) && k <= |open|
    ensures Counted(open[..k], active)
  {
    TakersFrom(open, 0, k);
    assert open[0..k] == open[..k] && open[0..] == open;
    forall p, s | 0 <= p < |active| && 0 <= s < k && active[p].Formatting? && active[p].element == open[..k][s]
      ensures Takers(open[..k][s..]) <= Marks(active[p..])
    {
      TakersFrom(open, s, k);
      assert open[..k][s..] == open[s..k];
      assert active[p].element == open[s];
    }
  }

  lemma CountedPush(open: Stack, active: Entries, e: Element)
    requires Counted(open, active) && !TakesMarker(e.name) && !InList(e, active)
    ensures Counted(open + [e], active)
  {
    OneTaker(e);
    TakersAdd(open, [e]);
    forall p, s | 0 <= p < |active| && 0 <= s < |open| + 1 && active[p].Formatting? && active[p].element == (open + [e])[s]
      ensures Takers((open + [e])[s..]) <= Marks(active[p..])
    {
      assert s < |open|;
      TakersAdd(open[s..], [e]);
      assert (open + [e])[s..] == open[s..] + [e];
      assert active[p].element == open[s];
    }
  }

  lemma CountedMark(open: Stack, active: Entries, e: Element, m: Entry)
    requires Counted(open, active) && !InList(e, active) && m.Marker?
    ensures Counted(open + [e], active + [m])
  {
    OneTaker(e);
    OneMarker(m);
    TakersAdd(open, [e]);
    MarksAdd(active, [m]);
    forall p, s | 0 <= p < |active| + 1 && 0 <= s < |open| + 1 && (active + [m])[p].Formatting? && (active + [m])[p].element == (open + [e])[s]
      ensures Takers((open + [e])[s..]) <= Marks((active + [m])[p..])
    {
      assert p < |active| && s < |open|;
      TakersAdd(open[s..], [e]);
      MarksAdd(active[p..], [m]);
      assert (open + [e])[s..] == open[s..] + [e];
      assert (active + [m])[p..] == active[p..] + [m];
      assert active[p].element == open[s];
    }
  }

  // A new entry for an element with nothing above it that takes a marker.
  lemma CountedEnter(open: Stack, active: Entries, q: nat, entry: Entry)
    requires Counted(open, active) && q <= |active| && entry.Formatting?
    requires forall s :: 0 <= s < |open| && open[s] == entry.element ==> Takers(open[s..]) == 0
    ensures Counted(open, Inserted(active, q, entry))
  {
    var other := Inserted(active, q, entry);
    MarksWithout(other, q);
    assert Removed(other, q) == active;
    forall p, s | 0 <= p < |other| && 0 <= s < |open| && other[p].Formatting? && other[p].element == open[s]
      ensures Takers(open[s..]) <= Marks(other[p..])
    {
      if p != q {
        var old_p := if p < q then p else p - 1;
        assert active[old_p] == other[p];
        MarksWithoutFrom(other, q, p);
      }
    }
  }

  lemma MarksWithout(active: Entries, q: nat)
    requires q < |active| && active[q].Formatting?
    ensures Marks(Removed(active, q)) == Marks(active)
  {
    MarksAdd(active[..q], active[q + 1..]);
    MarksAdd(active[..q] + [active[q]], active[q + 1..]);
    MarksAdd(active[..q], [active[q]]);
    OneMarker(active[q]);
    assert active == active[..q] + [active[q]] + active[q + 1..];
  }

  lemma MarksWithoutFrom(active: Entries, q: nat, p: nat)
    requires q < |active| && active[q].Formatting? && p < |active| && p != q
    ensures Marks(Removed(active, q)[if p < q then p else p - 1..]) == Marks(active[p..])
  {
    if p < q {
      MarksWithout(active[p..], q - p);
      assert Removed(active, q)[p..] == Removed(active[p..], q - p);
    } else {
      assert Removed(active, q)[p - 1..] == active[p..];
    }
  }

  lemma TakersWithout(open: Stack, k: nat)
    requires k < |open|
    ensures Takers(Removed(open, k)) <= Takers(open)
    ensures !TakesMarker(open[k].name) ==> Takers(Removed(open, k)) == Takers(open)
  {
    TakersFrom(open, 0, k);
    TakersFrom(open, k, k + 1);
    OneTaker(open[k]);
    assert open[0..] == open && open[0..k] == open[..k] && open[k..k + 1] == [open[k]];
    TakersAdd(open[..k], open[k + 1..]);
  }

  lemma CountedLeave(open: Stack, active: Entries, q: nat)
    requires Counted(open, active) && q < |active| && active[q].Formatting?
    ensures Counted(open, Removed(active, q))
  {
    var other := Removed(active, q);
    MarksWithout(active, q);
    forall p, s | 0 <= p < |other| && 0 <= s < |open| && other[p].Formatting? && other[p].element == open[s]
      ensures Takers(open[s..]) <= Marks(other[p..])
    {
      var old_p := if p < q then p else p + 1;
      assert active[old_p] == other[p];
      MarksWithoutFrom(active, q, old_p);
    }
  }

  lemma CountedRemove(open: Stack, active: Entries, k: nat)
    requires Counted(open, active) && k < |open|
    ensures Counted(Removed(open, k), active)
  {
    var other := Removed(open, k);
    TakersWithout(open, k);
    forall p, s | 0 <= p < |active| && 0 <= s < |other| && active[p].Formatting? && active[p].element == other[s]
      ensures Takers(other[s..]) <= Marks(active[p..])
    {
      if s < k {
        assert open[s] == other[s];
        TakersWithout(open[s..], k - s);
        assert other[s..] == Removed(open[s..], k - s);
      } else {
        assert open[s + 1] == other[s];
        assert other[s..] == open[s + 1..];
      }
    }
  }

  // A new element on the stack that takes no marker and has nothing above it that does.
  lemma CountedInsert(open: Stack, active: Entries, k: nat, e: Element)
    requires Counted(open, active) && k <= |open| && !TakesMarker(e.name) && Takers(open[k..]) == 0
    ensures Counted(Inserted(open, k, e), active)
  {
    var other := Inserted(open, k, e);
    TakersInserted(open, k, e, 0);
    assert other[0..] == other && open[0..] == open;
    forall p, s | 0 <= p < |active| && 0 <= s < |other| && active[p].Formatting? && active[p].element == other[s]
      ensures Takers(other[s..]) <= Marks(active[p..])
    {
      if s < k {
        TakersInserted(open, k, e, s);
        assert active[p].element == open[s];
      } else {
        NoneInserted(open, k, e, s);
      }
    }
  }

  lemma TakersInserted(open: Stack, k: nat, e: Element, s: nat)
    requires s <= k <= |open| && !TakesMarker(e.name)
    ensures Takers(Inserted(open, k, e)[s..]) == Takers(open[s..])
  {
    TakersFrom(open, s, k);
    TakersAdd(open[s..k] + [e], open[k..]);
    TakersAdd(open[s..k], [e]);
    OneTaker(e);
    assert Inserted(open, k, e)[s..] == open[s..k] + [e] + open[k..];
  }

  lemma NoneInserted(open: Stack, k: nat, e: Element, s: nat)
    requires k <= s <= |open| && !TakesMarker(e.name) && Takers(open[k..]) == 0
    ensures Takers(Inserted(open, k, e)[s..]) == 0
  {
    if s == k {
      TakersInserted(open, k, e, k);
    } else {
      TakersFrom(open, k, s - 1);
      assert Inserted(open, k, e)[s..] == open[s - 1..];
    }
  }

  // The element of an entry replaced in both sequences at once, or in the list alone.
  lemma CountedReplace(open: Stack, active: Entries, k: nat, q: nat, e: Element)
    requires Counted(open, active) && k < |open| && q < |active|
    requires active[q].Formatting? && active[q].element == open[k] && !InList(e, active) && e !in open
    requires !TakesMarker(open[k].name) && !TakesMarker(e.name)
    ensures Counted(open[k := e], active[q := active[q].(element := e)])
  {
    var other, list := open[k := e], active[q := active[q].(element := e)];
    SameTakers(open, other);
    SameMarks(active, list);
    forall p, s | 0 <= p < |list| && 0 <= s < |other| && list[p].Formatting? && list[p].element == other[s]
      ensures Takers(other[s..]) <= Marks(list[p..])
    {
      SameTakers(open[s..], other[s..]);
      SameMarks(active[p..], list[p..]);
      assert p == q <==> s == k;
      assert active[p].element == open[s];
    }
  }

  lemma {:induction false} SameTakers(a: Stack, b: Stack)
    requires |a| == |b| && forall i :: 0 <= i < |a| ==> TakesMarker(a[i].name) == TakesMarker(b[i].name)
    ensures Takers(a) == Takers(b)
  {
    if a != [] {
      SameTakers(Below(a), Below(b));
    }
  }

  lemma {:induction false} SameMarks(a: Entries, b: Entries)
    requires |a| == |b| && forall i :: 0 <= i < |a| ==> a[i].Marker? == b[i].Marker?
    ensures Marks(a) == Marks(b)
  {
    if a != [] {
      SameMarks(a[..|a| - 1], b[..|b| - 1]);
    }
  }

  // The entry's element is replaced by a new one that is also pushed.
  lemma CountedReopen(open: Stack, active: Entries, q: nat, e: Element)
    requires Counted(open, active) && q < |active| && active[q].Formatting?
    requires !TakesMarker(e.name) && !InList(e, active) && e !in open
    ensures Counted(open + [e], active[q := active[q].(element := e)])
  {
    var list := active[q := active[q].(element := e)];
    CountedPush(open, active, e);
    SameMarks(active, list);
    forall p, s | 0 <= p < |list| && 0 <= s < |open| + 1 && list[p].Formatting? && list[p].element == (open + [e])[s]
      ensures Takers((open + [e])[s..]) <= Marks(list[p..])
    {
      SameMarks(active[p..], list[p..]);
      if p == q {
        assert s == |open|;
        OneTaker(e);
        assert (open + [e])[s..] == [e];
      } else {
        assert active[p].element == (open + [e])[s];
      }
    }
  }

  // ---------------------------------------------------------------------------------------------
  // Clearing back to the last marker

  function LastMarker(active: Entries): (m: int)
    ensures -1 <= m < |active|
    ensures m >= 0 ==> active[m].Marker?
    ensures forall i :: m < i < |active| ==> active[i].Formatting?
  {
    if active == [] then -1
    else if active[|active| - 1].Marker? then |active| - 1
    else LastMarker(active[..|active| - 1])
  }

  lemma {:induction false} MarksOfTail(active: Entries, p: nat)
    requires p <= |active|
    ensures Marks(active[p..]) == 0 <==> LastMarker(active) < p
    ensures LastMarker(active) >= 0 ==> Marks(active) == Marks(active[..LastMarker(active)]) + 1
    ensures LastMarker(active) < 0 ==> Marks(active) == 0
  {
    if active == [] {
    } else if active[|active| - 1].Marker? {
      if p < |active| {
        MarksFrom(active, p, |active| - 1);
        OneMarker(active[|active| - 1]);
        assert active[|active| - 1..] == [active[|active| - 1]];
      }
    } else {
      var init := active[..|active| - 1];
      assert LastMarker(active) >= 0 ==> init[..LastMarker(active)] == active[..LastMarker(active)];
      if p == |active| {
        MarksOfTail(init, p - 1);
      } else {
        MarksOfTail(init, p);
        assert active[p..][..|active[p..]| - 1] == init[p..];
      }
    }
  }

  lemma CountedClear(open: Stack, active: Entries, k: nat)
    requires Counted(open, active) && k < |open| && TakesMarker(open[k].name)
    ensures LastMarker(active) >= 0
    ensures Counted(open[..k], active[..LastMarker(active)])
  {
    hide Takers;
    hide Marks;
    hide LastMarker;
    hide TakesMarker;
    var m := LastMarker(active);
    MarksOfTail(active, 0);
    assert active[0..] == active && open[0..] == open && open[0..k] == open[..k];
    TakersFrom(open, 0, k);
    TakersFrom(open, k, k + 1);
    OneTaker(open[k]);
    assert open[k..k + 1] == [open[k]];
    forall p, s | 0 <= p < m && 0 <= s < k && active[p].Formatting? && active[p].element == open[s]
      ensures Takers(open[..k][s..]) <= Marks(active[..m][p..])
    {
      CountedBefore(open, active, k, p, s);
    }
  }

  lemma CountedBefore(open: Stack, active: Entries, k: nat, p: nat, s: nat)
    requires s < k < |open| && TakesMarker(open[k].name) && p < LastMarker(active)
    requires Takers(open[s..]) <= Marks(active[p..])
    ensures Takers(open[..k][s..]) <= Marks(active[..LastMarker(active)][p..])
  {
    hide Takers;
    hide Marks;
    hide LastMarker;
    hide TakesMarker;
    var m := LastMarker(active);
    TakersFrom(open, s, k);
    TakersFrom(open, k, k + 1);
    OneTaker(open[k]);
    assert open[k..k + 1] == [open[k]] && open[..k][s..] == open[s..k];
    MarksOfTail(active[p..], 0);
    LastMarkerOfTail(active, p);
    assert active[p..][0..] == active[p..];
    assert active[p..][..m - p] == active[..m][p..];
  }

  lemma {:induction false} LastMarkerOfTail(active: Entries, p: nat)
    requires p <= LastMarker(active)
    ensures LastMarker(active[p..]) == LastMarker(active) - p
  {
  }

  // ---------------------------------------------------------------------------------------------
  // Order: entries before a marker belong to elements below those of the entries after it

  predicate IsOpenAt(open: Stack, active: Entries, p: int, u: nat)
    requires u < |open|
  {
    0 <= p < |active| && active[p].Formatting? && active[p].element == open[u]
  }

  predicate IsBetween(active: Entries, p: int, m: int, q: int) {
    0 <= p < m < q < |active| && active[m].Marker?
  }

  ghost predicate Ordered(open: Stack, active: Entries) {
    forall p, m, q, u, s :: 0 <= u < |open| && 0 <= s < |open| && IsBetween(active, p, m, q) ==>
      IsOpenAt(open, active, p, u) && IsOpenAt(open, active, q, s) ==> u < s
  }

  lemma {:induction false} OrderedCut(open: Stack, active: Entries, k: nat)
    requires Ordered(open, active) && k <= |open|
    ensures Ordered(open[..k], active)
  {
    forall p, m, q, u, s | 0 <= u < k && 0 <= s < k && IsBetween(active, p, m, q) && IsOpenAt(open[..k], active, p, u) && IsOpenAt(open[..k], active, q, s)
      ensures u < s
    {
      assert IsOpenAt(open, active, p, u) && IsOpenAt(open, active, q, s);
    }
  }

  lemma {:induction false} OrderedPush(open: Stack, active: Entries, e: Element)
    requires Ordered(open, active) && !InList(e, active)
    ensures Ordered(open + [e], active)
  {
    var other := open + [e];
    forall p, m, q, u, s | 0 <= u < |other| && 0 <= s < |other| && IsBetween(active, p, m, q) && IsOpenAt(other, active, p, u) && IsOpenAt(other, active, q, s)
      ensures u < s
    {
      assert u < |open| && s < |open|;
      assert IsOpenAt(open, active, p, u) && IsOpenAt(open, active, q, s);
    }
  }

  lemma {:induction false} OrderedMark(open: Stack, active: Entries, m: Entry)
    requires Ordered(open, active) && m.Marker?
    ensures Ordered(open, active + [m])
  {
    var list := active + [m];
    forall p, m, q, u, s | 0 <= u < |open| && 0 <= s < |open| && IsBetween(list, p, m, q) && IsOpenAt(open, list, p, u) && IsOpenAt(open, list, q, s)
      ensures u < s
    {
      assert IsBetween(active, p, m, q) && IsOpenAt(open, active, p, u) && IsOpenAt(open, active, q, s);
    }
  }

  // A new entry, past the last marker, for an element that is not open or is the current node.
  lemma {:induction false} OrderedEnter(open: Stack, active: Entries, at: nat, entry: Entry)
    requires Ordered(open, active) && LastMarker(active) < at <= |active| && entry.Formatting? && !InList(entry.element, active)
    requires forall s :: 0 <= s < |open| && open[s] == entry.element ==> s == |open| - 1
    ensures Ordered(open, Inserted(active, at, entry))
  {
    var list := Inserted(active, at, entry);
    forall p, m, q, u, s | 0 <= u < |open| && 0 <= s < |open| && IsBetween(list, p, m, q) && IsOpenAt(open, list, p, u) && IsOpenAt(open, list, q, s)
      ensures u < s
    {
      assert m < at;
      assert list[m] == active[m] && list[p] == active[p];
      if q != at {
        var old_q := if q < at then q else q - 1;
        assert list[q] == active[old_q];
        assert IsBetween(active, p, m, old_q) && IsOpenAt(open, active, p, u) && IsOpenAt(open, active, old_q, s);
      }
    }
  }

  lemma {:induction false} OrderedLeave(open: Stack, active: Entries, at: nat)
    requires Ordered(open, active) && at < |active| && active[at].Formatting?
    ensures Ordered(open, Removed(active, at))
  {
    var list := Removed(active, at);
    forall p, m, q, u, s | 0 <= u < |open| && 0 <= s < |open| && IsBetween(list, p, m, q) && IsOpenAt(open, list, p, u) && IsOpenAt(open, list, q, s)
      ensures u < s
    {
      var old_p, old_m, old_q := if p < at then p else p + 1, if m < at then m else m + 1, if q < at then q else q + 1;
      assert list[p] == active[old_p] && list[m] == active[old_m] && list[q] == active[old_q];
      assert IsBetween(active, old_p, old_m, old_q) && IsOpenAt(open, active, old_p, u) && IsOpenAt(open, active, old_q, s);
    }
  }

  lemma {:induction false} OrderedRemove(open: Stack, active: Entries, k: nat)
    requires Ordered(open, active) && k < |open|
    ensures Ordered(Removed(open, k), active)
  {
    var other := Removed(open, k);
    forall p, m, q, u, s | 0 <= u < |other| && 0 <= s < |other| && IsBetween(active, p, m, q) && IsOpenAt(other, active, p, u) && IsOpenAt(other, active, q, s)
      ensures u < s
    {
      var old_u, old_s := if u < k then u else u + 1, if s < k then s else s + 1;
      assert other[u] == open[old_u] && other[s] == open[old_s];
      assert IsOpenAt(open, active, p, old_u) && IsOpenAt(open, active, q, old_s);
    }
  }

  // Elements with an entry before the last marker are below the place.
  ghost predicate BeforeMarkerBelow(open: Stack, active: Entries, k: nat) {
    forall p, u :: 0 <= u < |open| && p < LastMarker(active) && IsOpenAt(open, active, p, u) ==> u < k
  }

  // An element whose entry comes after the last marker goes above those with an entry before it.
  lemma {:induction false} OrderedInsert(open: Stack, active: Entries, k: nat, e: Element)
    requires Ordered(open, active) && k <= |open| && BeforeMarkerBelow(open, active, k)
    requires forall p :: 0 <= p < |active| && active[p].Formatting? && active[p].element == e ==> LastMarker(active) < p
    ensures Ordered(Inserted(open, k, e), active)
  {
    var other := Inserted(open, k, e);
    forall p, m, q, u, s | 0 <= u < |other| && 0 <= s < |other| && IsBetween(active, p, m, q) && IsOpenAt(other, active, p, u) && IsOpenAt(other, active, q, s)
      ensures u < s
    {
      assert p < LastMarker(active);
      assert u != k;
      var old_u := if u < k then u else u - 1;
      assert other[u] == open[old_u];
      assert IsOpenAt(open, active, p, old_u);
      if s != k {
        var old_s := if s < k then s else s - 1;
        assert other[s] == open[old_s];
        assert IsOpenAt(open, active, q, old_s);
      }
    }
  }

  lemma {:induction false} OrderedReplace(open: Stack, active: Entries, k: nat, at: nat, e: Element)
    requires Ordered(open, active) && k < |open| && at < |active|
    requires active[at].Formatting? && active[at].element == open[k] && !InList(e, active) && e !in open
    ensures Ordered(open[k := e], active[at := active[at].(element := e)])
  {
    var other, list := open[k := e], active[at := active[at].(element := e)];
    forall p, m, q, u, s | 0 <= u < |other| && 0 <= s < |other| && IsBetween(list, p, m, q) && IsOpenAt(other, list, p, u) && IsOpenAt(other, list, q, s)
      ensures u < s
    {
      assert p == at <==> u == k;
      assert q == at <==> s == k;
      assert IsBetween(active, p, m, q) && IsOpenAt(open, active, p, u) && IsOpenAt(open, active, q, s);
    }
  }

  // The entry's element, past the last marker, is replaced by a new one that is also pushed.
  lemma {:induction false} OrderedReopen(open: Stack, active: Entries, at: nat, e: Element)
    requires Ordered(open, active) && LastMarker(active) < at < |active| && active[at].Formatting?
    requires !InList(e, active) && e !in open
    ensures Ordered(open + [e], active[at := active[at].(element := e)])
  {
    var other, list := open + [e], active[at := active[at].(element := e)];
    forall p, m, q, u, s | 0 <= u < |other| && 0 <= s < |other| && IsBetween(list, p, m, q) && IsOpenAt(other, list, p, u) && IsOpenAt(other, list, q, s)
      ensures u < s
    {
      assert active[m].Marker? && m < at;
      assert p != at && list[p] == active[p] && u < |open|;
      assert q == at <==> s == |open|;
      if q != at {
        assert IsBetween(active, p, m, q) && IsOpenAt(open, active, p, u) && IsOpenAt(open, active, q, s);
      }
    }
  }

  lemma {:induction false} OrderedPrefix(open: Stack, active: Entries, n: nat)
    requires Ordered(open, active) && n <= |active|
    ensures Ordered(open, active[..n])
  {
    var list := active[..n];
    forall p, m, q, u, s | 0 <= u < |open| && 0 <= s < |open| && IsBetween(list, p, m, q) && IsOpenAt(open, list, p, u) && IsOpenAt(open, list, q, s)
      ensures u < s
    {
      assert IsBetween(active, p, m, q) && IsOpenAt(open, active, p, u) && IsOpenAt(open, active, q, s);
    }
  }

  // An element whose entry comes after the last marker is above those with an entry before it.
  lemma {:induction false} AboveMarkers(open: Stack, active: Entries, q: nat, s: nat)
    requires Ordered(open, active) && LastMarker(active) < q && s < |open| && IsOpenAt(open, active, q, s)
    ensures BeforeMarkerBelow(open, active, s)
  {
    var m := LastMarker(active);
    forall p, u | 0 <= u < |open| && p < m && IsOpenAt(open, active, p, u)
      ensures u < s
    {
      assert IsBetween(active, p, m, q);
    }
  }

  // ---------------------------------------------------------------------------------------------
  // Balance

  // The list and the stack are in step: there are markers for all elements that take one, and what is
  // still open of the entries is in the order of the markers.
  ghost predicate Balanced(open: Stack, active: Entries) {
    Counted(open, active) && Ordered(open, active)
  }

  lemma {:induction false} BalancedCut(open: Stack, active: Entries, k: nat)
    requires Balanced(open, active) && k <= |open|
    ensures Balanced(open[..k], active)
  {
    hide Counted;
    hide Ordered;
    CountedCut(open, active, k);
    OrderedCut(open, active, k);
  }

  lemma {:induction false} BalancedPush(open: Stack, active: Entries, e: Element)
    requires Balanced(open, active) && !TakesMarker(e.name) && !InList(e, active)
    ensures Balanced(open + [e], active)
  {
    hide Counted;
    hide Ordered;
    CountedPush(open, active, e);
    OrderedPush(open, active, e);
  }

  lemma {:induction false} BalancedMark(open: Stack, active: Entries, e: Element, m: Entry)
    requires Balanced(open, active) && !InList(e, active) && m.Marker?
    ensures Balanced(open + [e], active + [m])
  {
    hide Counted;
    hide Ordered;
    CountedMark(open, active, e, m);
    OrderedPush(open, active, e);
    OrderedMark(open + [e], active, m);
  }

  // A new entry past the last marker, for an element that is not open or is the current node and takes no marker.
  lemma {:induction false} BalancedEnter(open: Stack, active: Entries, at: nat, entry: Entry)
    requires Balanced(open, active) && LastMarker(active) < at <= |active| && entry.Formatting? && !InList(entry.element, active)
    requires forall s :: 0 <= s < |open| && open[s] == entry.element ==> s == |open| - 1 && !TakesMarker(open[s].name)
    ensures Balanced(open, Inserted(active, at, entry))
  {
    hide Counted;
    hide Ordered;
    hide TakesMarker;
    hide LastMarker;
    forall s | 0 <= s < |open| && open[s] == entry.element
      ensures Takers(open[s..]) == 0
    {
      OneTaker(open[s]);
      assert open[s..] == [open[s]];
    }
    CountedEnter(open, active, at, entry);
    OrderedEnter(open, active, at, entry);
  }

  lemma {:induction false} BalancedLeave(open: Stack, active: Entries, at: nat)
    requires Balanced(open, active) && at < |active| && active[at].Formatting?
    ensures Balanced(open, Removed(active, at))
  {
    hide Counted;
    hide Ordered;
    CountedLeave(open, active, at);
    OrderedLeave(open, active, at);
  }

  lemma {:induction false} BalancedRemove(open: Stack, active: Entries, k: nat)
    requires Balanced(open, active) && k < |open|
    ensures Balanced(Removed(open, k), active)
  {
    hide Counted;
    hide Ordered;
    CountedRemove(open, active, k);
    OrderedRemove(open, active, k);
  }

  // A new element on the stack that takes no marker and has nothing above it that does, in the order of
  // the markers.
  lemma {:induction false} BalancedInsert(open: Stack, active: Entries, k: nat, e: Element)
    requires Balanced(open, active) && k <= |open| && !TakesMarker(e.name) && Takers(open[k..]) == 0
    requires BeforeMarkerBelow(open, active, k)
    requires forall p :: 0 <= p < |active| && active[p].Formatting? && active[p].element == e ==> LastMarker(active) < p
    ensures Balanced(Inserted(open, k, e), active)
  {
    hide Counted;
    hide Ordered;
    CountedInsert(open, active, k, e);
    OrderedInsert(open, active, k, e);
  }

  // The element of an entry replaced in both sequences at once.
  lemma {:induction false} BalancedReplace(open: Stack, active: Entries, k: nat, at: nat, e: Element)
    requires Balanced(open, active) && k < |open| && at < |active|
    requires active[at].Formatting? && active[at].element == open[k] && !InList(e, active) && e !in open
    requires !TakesMarker(open[k].name) && !TakesMarker(e.name)
    ensures Balanced(open[k := e], active[at := active[at].(element := e)])
  {
    hide Counted;
    hide Ordered;
    CountedReplace(open, active, k, at, e);
    OrderedReplace(open, active, k, at, e);
  }

  // The entry's element is replaced by a new one that is also pushed.
  lemma {:induction false} BalancedReopen(open: Stack, active: Entries, at: nat, e: Element)
    requires Balanced(open, active) && LastMarker(active) < at < |active| && active[at].Formatting?
    requires !TakesMarker(e.name) && !InList(e, active) && e !in open
    ensures Balanced(open + [e], active[at := active[at].(element := e)])
  {
    hide Counted;
    hide Ordered;
    CountedReopen(open, active, at, e);
    OrderedReopen(open, active, at, e);
  }

  /** Closing an element that takes a marker and clearing the list back to its last marker. */
  lemma {:induction false} BalancedClear(open: Stack, active: Entries, k: nat)
    requires Balanced(open, active) && k < |open| && TakesMarker(open[k].name)
    ensures LastMarker(active) >= 0
    ensures Balanced(open[..k], active[..LastMarker(active)])
  {
    hide Counted;
    hide Ordered;
    CountedClear(open, active, k);
    OrderedCut(open, active, k);
    OrderedPrefix(open[..k], active, LastMarker(active));
  }

  // The last entry after the last marker whose element has the name, or -1.
  function LastNamed(active: Entries, name: Name): (k: int)
    ensures -1 <= k < |active|
    ensures k >= 0 ==> LastMarker(active) < k && active[k].Formatting? && active[k].element.name == name
    ensures forall i :: LastMarker(active) < i < |active| && k < i ==> active[i].Formatting? && active[i].element.name != name
  {
    if active == [] || active[|active| - 1].Marker? then -1
    else if active[|active| - 1].element.name == name then |active| - 1
    else LastNamed(active[..|active| - 1], name)
  }

  lemma {:induction false} LastNamedIs(active: Entries, name: Name, k: int)
    requires -1 <= k < |active| && forall j :: k < j < |active| ==> active[j].Formatting? && active[j].element.name != name
    requires k >= 0 ==> active[k].Marker? || active[k].element.name == name
    ensures LastNamed(active, name) == if k >= 0 && active[k].Formatting? then k else -1
  {
    hide *;
  }

  // ---------------------------------------------------------------------------------------------
  // What balance means: every open element that takes a marker has a marker of its own

  // The marker with i markers from it to the end of the list.
  function FromEnd(active: Entries, i: nat): (m: int)
    ensures -1 <= m < |active|
  {
    if active == [] || i == 0 then -1
    else if !active[|active| - 1].Marker? then FromEnd(active[..|active| - 1], i)
    else if i == 1 then |active| - 1
    else FromEnd(active[..|active| - 1], i - 1)
  }

  lemma {:induction false} FromEndFacts(active: Entries, i: nat)
    requires 0 < i <= Marks(active)
    ensures FromEnd(active, i) >= 0 && active[FromEnd(active, i)].Marker?
    ensures Marks(active[FromEnd(active, i)..]) == i
  {
    var init, last := active[..|active| - 1], active[|active| - 1];
    OneMarker(last);
    if !last.Marker? || i > 1 {
      var m := FromEnd(active, i);
      FromEndFacts(init, if last.Marker? then i - 1 else i);
      MarksAdd(init[m..], [last]);
      assert active[m..] == init[m..] + [last];
    } else {
      assert active[|active| - 1..] == [last];
    }
  }

  // The marker that belongs to the element at s: as many from the end as the element is from the top.
  function MarkerOf(open: Stack, active: Entries, s: nat): int
    requires s < |open|
  {
    FromEnd(active, Takers(open[s..]))
  }

  /**
   In a balanced state the open elements that take a marker are matched with markers of the list, in
   the same order and no two with the same marker, and every entry after such a marker that is still
   open lies above the marker's element.
   */
  lemma MarkersMatch(open: Stack, active: Entries)
    requires Balanced(open, active)
    ensures forall s :: 0 <= s < |open| && TakesMarker(open[s].name) ==>
              0 <= MarkerOf(open, active, s) < |active| && active[MarkerOf(open, active, s)].Marker?
    ensures forall s, t :: 0 <= s < t < |open| && TakesMarker(open[s].name) && TakesMarker(open[t].name) ==>
              MarkerOf(open, active, s) < MarkerOf(open, active, t)
    ensures forall s, p, u :: 0 <= s < |open| && TakesMarker(open[s].name) && 0 <= u < |open| && IsOpenAt(open, active, p, u) ==>
              MarkerOf(open, active, s) < p ==> s < u
  {
    forall s | 0 <= s < |open| && TakesMarker(open[s].name)
      ensures 0 <= MarkerOf(open, active, s) < |active| && active[MarkerOf(open, active, s)].Marker?
      ensures Marks(active[MarkerOf(open, active, s)..]) == Takers(open[s..])
    {
      HasOwnMarker(open, active, s);
    }
    forall s, t | 0 <= s < t < |open| && TakesMarker(open[s].name) && TakesMarker(open[t].name)
      ensures MarkerOf(open, active, s) < MarkerOf(open, active, t)
    {
      SameOrder(open, active, s, t);
    }
    forall s, p, u | 0 <= s < |open| && TakesMarker(open[s].name) && 0 <= u < |open| && IsOpenAt(open, active, p, u)
        && MarkerOf(open, active, s) < p
      ensures s < u
    {
      StillOpenAbove(open, active, s, p, u);
    }
  }

  lemma HasOwnMarker(open: Stack, active: Entries, s: nat)
    requires Balanced(open, active) && s < |open| && TakesMarker(open[s].name)
    ensures 0 <= MarkerOf(open, active, s) < |active| && active[MarkerOf(open, active, s)].Marker?
    ensures Marks(active[MarkerOf(open, active, s)..]) == Takers(open[s..]) > 0
  {
    TakersFrom(open, 0, s);
    TakersFrom(open, s, s + 1);
    OneTaker(open[s]);
    assert open[0..] == open && open[s..s + 1] == [open[s]];
    FromEndFacts(active, Takers(open[s..]));
  }

  lemma SameOrder(open: Stack, active: Entries, s: nat, t: nat)
    requires Balanced(open, active) && s < t < |open| && TakesMarker(open[s].name) && TakesMarker(open[t].name)
    ensures MarkerOf(open, active, s) < MarkerOf(open, active, t)
  {
    HasOwnMarker(open, active, s);
    HasOwnMarker(open, active, t);
    TakersFrom(open, s, s + 1);
    TakersFrom(open, s + 1, t);
    OneTaker(open[s]);
    assert open[s..s + 1] == [open[s]];
    var ms, mt := MarkerOf(open, active, s), MarkerOf(open, active, t);
    if mt <= ms {
      MarksFrom(active, mt, ms);
    }
  }

  lemma StillOpenAbove(open: Stack, active: Entries, s: nat, p: nat, u: nat)
    requires Balanced(open, active) && s < |open| && TakesMarker(open[s].name)
    requires MarkerOf(open, active, s) < p < |active| && active[p].Formatting? && u < |open| && open[u] == active[p].element
    ensures s < u
  {
    HasOwnMarker(open, active, s);
    var m := MarkerOf(open, active, s);
    MarksFrom(active, m, m + 1);
    MarksFrom(active, m + 1, p);
    OneMarker(active[m]);
    assert active[m..m + 1] == [active[m]];
    if u <= s {
      TakersFrom(open, u, s);
    }
  }

  /** No element that takes a marker lies above an open element whose entry comes after the last marker. */
  lemma NothingMarkedAbove(open: Stack, active: Entries, p: nat, s: nat)
    requires Balanced(open, active) && LastMarker(active) < p < |active| && active[p].Formatting?
    requires s < |open| && open[s] == active[p].element
    ensures forall t :: s <= t < |open| ==> !TakesMarker(open[t].name)
  {
    MarksOfTail(active, p);
    NoTakers(open[s..]);
    forall t | s <= t < |open|
      ensures !TakesMarker(open[t].name)
    {
      assert open[t] == open[s..][t - s];
    }
  }

  // ---------------------------------------------------------------------------------------------
  // At most three of a family between two markers

  // Two elements are of one family if they agree in name and in the number of their attributes.
  datatype Family = Family(name: Name, attributeCount: nat)

  function FamilyOf(e: Element): Family {
    Family(e.name, |e.attributes|)
  }

  // How many members of the family there are after the last marker.
  function Kin(active: Entries, f: Family): nat {
    if active == [] || active[|active| - 1].Marker? then 0
    else Kin(active[..|active| - 1], f) + if FamilyOf(active[|active| - 1].element) == f then 1 else 0
  }

  // The place of the first of them, or -1.
  function Earliest(active: Entries, f: Family): (q: int)
    ensures -1 <= q < |active|
    ensures q >= 0 <==> Kin(active, f) > 0
    ensures q >= 0 ==> LastMarker(active) < q && active[q].Formatting? && FamilyOf(active[q].element) == f
    ensures forall i :: LastMarker(active) < i < (if q >= 0 then q else |active|) ==> FamilyOf(active[i].element) != f
  {
    if active == [] || active[|active| - 1].Marker? then -1
    else
      var q := Earliest(active[..|active| - 1], f);
      assert LastMarker(active[..|active| - 1]) == LastMarker(active);
      if q >= 0 then q else if FamilyOf(active[|active| - 1].element) == f then |active| - 1 else -1
  }

  // The list after an entry is pushed onto it.
  function Entered(active: Entries, entry: Entry): Entries
    requires entry.Formatting?
  {
    var f := FamilyOf(entry.element);
    (if Kin(active, f) == 3 then Removed(active, Earliest(active, f)) else active) + [entry]
  }

  // Every stretch between markers holds at most three of a family.
  ghost predicate Ark(active: Entries) {
    forall n, f :: 0 <= n <= |active| ==> Kin(active[..n], f) <= 3
  }

  lemma {:induction false} KinWithout(active: Entries, q: nat, f: Family)
    requires q < |active| && active[q].Formatting?
    ensures Kin(Removed(active, q), f) <= Kin(active, f)
    ensures LastMarker(active) < q && FamilyOf(active[q].element) == f ==> Kin(Removed(active, q), f) == Kin(active, f) - 1
  {
    hide FamilyOf;
    var last := |active| - 1;
    if q == last {
      assert Removed(active, q) == active[..q];
    } else if active[last].Formatting? {
      KinWithout(active[..last], q, f);
      assert Removed(active, q)[..last - 1] == Removed(active[..last], q);
      assert Removed(active, q)[last - 1] == active[last];
    }
  }

  lemma ArkRemove(active: Entries, q: nat)
    requires Ark(active) && q < |active| && active[q].Formatting?
    ensures Ark(Removed(active, q))
  {
    forall n, f | 0 <= n <= |active| - 1
      ensures Kin(Removed(active, q)[..n], f) <= 3
    {
      if n <= q {
        assert Removed(active, q)[..n] == active[..n];
      } else {
        assert Removed(active, q)[..n] == Removed(active[..n + 1], q);
        KinWithout(active[..n + 1], q, f);
      }
    }
  }

  lemma ArkOfPrefix(active: Entries, k: nat)
    requires Ark(active) && k <= |active|
    ensures Ark(active[..k])
  {
    forall n, f | 0 <= n <= k
      ensures Kin(active[..k][..n], f) <= 3
    {
      assert active[..k][..n] == active[..n];
    }
  }

  lemma ArkPush(active: Entries, entry: Entry)
    requires Ark(active)
    requires entry.Formatting? ==> Kin(active, FamilyOf(entry.element)) < 3
    ensures Ark(active + [entry])
  {
    var other := active + [entry];
    forall n, f | 0 <= n <= |other|
      ensures Kin(other[..n], f) <= 3
    {
      if n < |other| {
        assert other[..n] == active[..n];
      } else {
        assert other[..n] == other && other[..|other| - 1] == active && active[..|active|] == active;
      }
    }
  }

  lemma ArkEnter(active: Entries, entry: Entry)
    requires Ark(active) && entry.Formatting?
    ensures Ark(Entered(active, entry))
  {
    var f := FamilyOf(entry.element);
    assert active[..|active|] == active;
    assert Kin(active, f) <= 3;
    if Kin(active, f) == 3 {
      ArkRemove(active, Earliest(active, f));
      KinWithout(active, Earliest(active, f), f);
      ArkPush(Removed(active, Earliest(active, f)), entry);
    } else {
      ArkPush(active, entry);
    }
  }

  lemma {:induction false} KinOfSame(a: Entries, b: Entries, f: Family)
    requires |a| == |b|
    requires forall i :: 0 <= i < |a| ==> a[i].Marker? == b[i].Marker?
    requires forall i :: 0 <= i < |a| && a[i].Formatting? ==> FamilyOf(a[i].element) == FamilyOf(b[i].element)
    ensures Kin(a, f) == Kin(b, f)
  {
    if a != [] {
      KinOfSame(a[..|a| - 1], b[..|b| - 1], f);
    }
  }

  lemma ArkReplace(active: Entries, q: nat, e: Element)
    requires Ark(active) && q < |active| && active[q].Formatting? && FamilyOf(e) == FamilyOf(active[q].element)
    ensures Ark(active[q := active[q].(element := e)])
  {
    var other := active[q := active[q].(element := e)];
    forall n, f | 0 <= n <= |active|
      ensures Kin(other[..n], f) <= 3
    {
      KinOfSame(active[..n], other[..n], f);
    }
  }

  lemma {:induction false} KinWith(active: Entries, at: nat, entry: Entry, f: Family)
    requires LastMarker(active) < at <= |active| && entry.Formatting?
    ensures Kin(Inserted(active, at, entry), f) == Kin(active, f) + if FamilyOf(entry.element) == f then 1 else 0
  {
    var list := Inserted(active, at, entry);
    if at == |active| {
      assert list[..|list| - 1] == active;
    } else {
      KinWith(active[..|active| - 1], at, entry, f);
      assert list[..|list| - 1] == Inserted(active[..|active| - 1], at, entry);
    }
  }

  lemma {:induction false} KinOfPrefix(active: Entries, n: nat, f: Family)
    requires LastMarker(active) < n <= |active|
    ensures Kin(active[..n], f) <= Kin(active, f) && LastMarker(active[..n]) == LastMarker(active)
  {
    if n == |active| {
      assert active[..n] == active;
    } else {
      KinOfPrefix(active[..|active| - 1], n, f);
      assert active[..|active| - 1][..n] == active[..n];
    }
  }

  lemma {:induction false} ArkInsert(active: Entries, at: nat, entry: Entry)
    requires Ark(active) && LastMarker(active) < at <= |active| && entry.Formatting? && Kin(active, FamilyOf(entry.element)) < 3
    ensures Ark(Inserted(active, at, entry))
  {
    var list := Inserted(active, at, entry);
    forall n, f | 0 <= n <= |list|
      ensures Kin(list[..n], f) <= 3
    {
      if n <= at {
        assert list[..n] == active[..n];
      } else {
        assert list[..n] == Inserted(active[..n - 1], at, entry);
        KinOfPrefix(active, n - 1, f);
        KinWith(active[..n - 1], at, entry, f);
      }
    }
  }

  lemma {:induction false} LastMarkerIs(active: Entries, m: int)
    requires -1 <= m < |active| && (m >= 0 ==> active[m].Marker?) && forall i :: m < i < |active| ==> active[i].Formatting?
    ensures LastMarker(active) == m
  {
  }

  lemma {:induction false} LastMarkerWithout(active: Entries, k: nat)
    requires LastMarker(active) < k < |active|
    ensures LastMarker(Removed(active, k)) == LastMarker(active)
  {
    var list := Removed(active, k);
    assert forall i :: 0 <= i < |list| ==> list[i] == active[if i < k then i else i + 1];
    LastMarkerIs(list, LastMarker(active));
  }

  predicate IsEarliest(active: Entries, q: nat, f: Family) {
    && LastMarker(active) < q < |active| && active[q].Formatting? && FamilyOf(active[q].element) == f
    && forall i :: LastMarker(active) < i < q ==> FamilyOf(active[i].element) != f
  }

  /** A push drops nothing, or exactly the earliest of three relatives after the last marker. */
  lemma PushDropsEarliest(active: Entries, entry: Entry)
    requires entry.Formatting?
    ensures Kin(active, FamilyOf(entry.element)) != 3 ==> Entered(active, entry) == active + [entry]
    ensures Kin(active, FamilyOf(entry.element)) == 3 ==>
              exists q :: IsEarliest(active, q, FamilyOf(entry.element)) && Entered(active, entry) == Removed(active, q) + [entry]
  {
    var f := FamilyOf(entry.element);
    if Kin(active, f) == 3 {
      assert IsEarliest(active, Earliest(active, f), f);
    }
  }

  // An entry after the last marker for an element of the same name and with as many attributes.
  predicate IsRelative(active: Entries, i: int, e: Element) {
    && 0 <= i < |active| && (forall j :: i <= j < |active| ==> active[j].Formatting?)
    && active[i].element.name == e.name && |active[i].element.attributes| == |e.attributes|
  }

  function Relatives(active: Entries, e: Element): set<int> {
    set i | 0 <= i < |active| && IsRelative(active, i, e)
  }

  lemma RelativeOfInit(active: Entries, i: int, e: Element)
    requires active != [] && active[|active| - 1].Formatting? && i != |active| - 1
    ensures IsRelative(active, i, e) <==> IsRelative(active[..|active| - 1], i, e)
  {
    var init := active[..|active| - 1];
    assert forall j :: 0 <= j < |init| ==> init[j] == active[j];
  }

  lemma RelativesStep(active: Entries, e: Element)
    requires active != [] && active[|active| - 1].Formatting?
    ensures Relatives(active, e) ==
            Relatives(active[..|active| - 1], e) + (if FamilyOf(active[|active| - 1].element) == FamilyOf(e) then {|active| - 1} else {})
    ensures |active| - 1 !in Relatives(active[..|active| - 1], e)
  {
    hide *;
    var n := |active|;
    LastRelative(active, e);
    RelativesAre(active, e);
    RelativesAre(active[..n - 1], e);
    forall i | i != n - 1
      ensures IsRelative(active, i, e) <==> IsRelative(active[..n - 1], i, e)
    {
      RelativeOfInit(active, i, e);
    }
    forall i
      ensures i in Relatives(active, e) <==> i in Relatives(active[..n - 1], e) || (i == n - 1 && FamilyOf(active[n - 1].element) == FamilyOf(e))
    {
      assert i != n - 1 ==> (IsRelative(active, i, e) <==> IsRelative(active[..n - 1], i, e));
    }
  }

  lemma LastRelative(active: Entries, e: Element)
    requires active != [] && active[|active| - 1].Formatting?
    ensures IsRelative(active, |active| - 1, e) <==> FamilyOf(active[|active| - 1].element) == FamilyOf(e)
  {
  }

  lemma NoRelatives(active: Entries, e: Element)
    requires active == [] || active[|active| - 1].Marker?
    ensures Relatives(active, e) == {}
  {
  }

  lemma {:induction false} KinIsCount(active: Entries, e: Element)
    ensures Kin(active, FamilyOf(e)) == |Relatives(active, e)|
  {
    hide Relatives;
    hide FamilyOf;
    if active == [] || active[|active| - 1].Marker? {
      NoRelatives(active, e);
    } else {
      KinIsCount(active[..|active| - 1], e);
      RelativesStep(active, e);
    }
  }

  lemma ThreeOrMore(s: set<int>, a: int, b: int, c: int)
    requires a in s && b in s && c in s && a < b < c
    ensures |s| >= 3 && (|s| == 3 ==> forall x :: x in s ==> x == a || x == b || x == c)
  {
    var r := s - {a};
    var q := r - {b};
    var p := q - {c};
    assert |s| == |r| + 1 && |r| == |q| + 1 && |q| == |p| + 1;
    assert |p| == 0 ==> p == {};
    forall x | x in s
      ensures x == a || x == b || x == c || x in p
    {
    }
  }

  lemma OneOf(s: set<int>) returns (x: int)
    requires |s| > 0
    ensures x in s && |s - {x}| == |s| - 1
  {
    assert (forall y :: y !in s) ==> s == {};
    x :| x in s;
  }

  lemma ThreeOf(s: set<int>) returns (a: int, b: int, c: int)
    requires |s| == 3
    ensures a < b < c && a in s && b in s && c in s
  {
    var x := OneOf(s);
    var y := OneOf(s - {x});
    var z := OneOf(s - {x} - {y});
    a := if x < y && x < z then x else if y < z then y else z;
    c := if x > y && x > z then x else if y > z then y else z;
    b := if x != a && x != c then x else if y != a && y != c then y else z;
  }

  /**
   The fourth of four elements of one name and with as many attributes after the last marker pushes the first of
   them out of the list; an element with fewer such relatives pushes out none.
   */
  lemma NoahsArk(active: Entries, entry: Entry)
    requires Ark(active) && entry.Formatting?
    ensures forall a, b, c :: a < b < c && IsRelative(active, a, entry.element) && IsRelative(active, b, entry.element) && IsRelative(active, c, entry.element) ==>
              0 <= a < |active| && Entered(active, entry) == active[..a] + active[a + 1..] + [entry]
    ensures (forall a, b, c :: !(a < b < c && IsRelative(active, a, entry.element) && IsRelative(active, b, entry.element) && IsRelative(active, c, entry.element))) ==>
              Entered(active, entry) == active + [entry]
  {
    hide Kin;
    hide Earliest;
    hide FamilyOf;
    hide IsRelative;
    var e := entry.element;
    KinIsCount(active, e);
    RelativesAre(active, e);
    assert active[..|active|] == active;
    assert Kin(active[..|active|], FamilyOf(e)) <= 3;
    forall a, b, c | a < b < c && IsRelative(active, a, e) && IsRelative(active, b, e) && IsRelative(active, c, e)
      ensures Entered(active, entry) == active[..a] + active[a + 1..] + [entry]
    {
      ThreeOrMore(Relatives(active, e), a, b, c);
      EarliestIsRelative(active, e);
      assert Earliest(active, FamilyOf(e)) == a;
    }
    if Kin(active, FamilyOf(e)) == 3 {
      var a, b, c := ThreeOf(Relatives(active, e));
    }
  }

  lemma RelativesAre(active: Entries, e: Element)
    ensures forall i :: i in Relatives(active, e) <==> IsRelative(active, i, e)
    ensures forall i :: IsRelative(active, i, e) ==> 0 <= i < |active|
  {
  }

  lemma EarliestIsRelative(active: Entries, e: Element)
    requires Kin(active, FamilyOf(e)) > 0
    ensures IsRelative(active, Earliest(active, FamilyOf(e)), e) && forall i :: IsRelative(active, i, e) ==> Earliest(active, FamilyOf(e)) <= i
  {
    hide Kin;
    hide Earliest;
    hide LastMarker;
  }

  // What the rules do to the list, other than the adoption agency.
  datatype Act = Push(entry: Entry) | Mark(id: NodeId) | Clear | Drop(at: nat) | Reopen(which: nat, id: NodeId)

  predicate CanAct(active: Entries, act: Act) {
    match act
    case Push(entry) => entry.Formatting?
    case Mark(_) => true
    case Clear => LastMarker(active) >= 0
    case Drop(q) => q < |active| && active[q].Formatting?
    case Reopen(q, _) => q < |active| && active[q].Formatting? && OwnElement(active[q])
  }

  function Acted(active: Entries, act: Act): Entries
    requires CanAct(active, act)
  {
    match act
    case Push(entry) => Entered(active, entry)
    case Mark(id) => active + [Marker(id)]
    case Clear => active[..LastMarker(active)]
    case Drop(q) => Removed(active, q)
    case Reopen(q, id) => active[q := active[q].(element := NewElement(id, active[q].tag))]
  }

  predicate CanRun(active: Entries, acts: seq<Act>)
    decreases |acts|
  {
    acts == [] || (CanAct(active, acts[0]) && CanRun(Acted(active, acts[0]), acts[1..]))
  }

  function Ran(active: Entries, acts: seq<Act>): Entries
    requires CanRun(active, acts)
    decreases |acts|
  {
    if acts == [] then active else Ran(Acted(active, acts[0]), acts[1..])
  }

  /** No run of pushes, markers, clears, removals and reconstructions puts four relatives between two markers. */
  lemma {:induction false} ArkHolds(active: Entries, acts: seq<Act>)
    requires Ark(active) && CanRun(active, acts)
    ensures Ark(Ran(active, acts))
    decreases |acts|
  {
    if acts != [] {
      match acts[0] {
        case Push(entry) => ArkEnter(active, entry);
        case Mark(id) => ArkPush(active, Marker(id));
        case Clear => ArkOfPrefix(active, LastMarker(active));
        case Drop(q) => ArkRemove(active, q);
        case Reopen(q, id) => ArkReplace(active, q, NewElement(id, active[q].tag));
      }
      ArkHolds(Acted(active, acts[0]), acts[1..]);
    }
  }

  // ---------------------------------------------------------------------------------------------
  // Reconstruction

  function NewElement(id: NodeId, tag: Tag): Element {
    Element(id, tag.name, tag.attributes)
  }

  // The entries from here on are neither markers nor open.
  function ReopenFrom(active: Entries, open: Stack): (k: nat)
    ensures k <= |active|
    ensures forall p :: k <= p < |active| ==> active[p].Formatting? && active[p].element !in open
    ensures k > 0 ==> active[k - 1].Marker? || active[k - 1].element in open
  {
    if active == [] then 0
    else if active[|active| - 1].Marker? || active[|active| - 1].element in open then |active|
    else ReopenFrom(active[..|active| - 1], open)
  }

  // The entries from `from` up to `to` given new elements, numbered from `next`.
  function Reopened(active: Entries, from: nat, to: nat, next: NodeId): Entries {
    seq(|active|, i requires 0 <= i < |active| =>
      if from <= i < to && active[i].Formatting? then active[i].(element := NewElement(next + i - from, active[i].tag)) else active[i])
  }

  function NewElements(active: Entries, from: nat, to: nat, next: NodeId): Stack
    requires from <= to <= |active| && forall p :: from <= p < to ==> active[p].Formatting?
  {
    seq(to - from, i requires 0 <= i < to - from => NewElement(next + i, active[from + i].tag))
  }

  lemma ReopenedStep(active: Entries, from: nat, i: nat, next: NodeId)
    requires from <= i < |active| && forall p :: from <= p < |active| ==> active[p].Formatting?
    ensures |Reopened(active, from, i, next)| == |active| && Reopened(active, from, i, next)[i] == active[i]
    ensures Reopened(active, from, i + 1, next) ==
            Reopened(active, from, i, next)[i := active[i].(element := NewElement(next + i - from, active[i].tag))]
    ensures NewElements(active, from, i + 1, next) == NewElements(active, from, i, next) + [NewElement(next + i - from, active[i].tag)]
  {
  }

  lemma ReopenedNone(active: Entries, from: nat, next: NodeId)
    requires from <= |active|
    ensures Reopened(active, from, from, next) == active && NewElements(active, from, from, next) == []
  {
  }

  lemma {:induction false} ReopenFromIs(active: Entries, open: Stack, k: nat)
    requires k <= |active| && forall p :: k <= p < |active| ==> active[p].Formatting? && active[p].element !in open
    requires k > 0 ==> active[k - 1].Marker? || active[k - 1].element in open
    ensures ReopenFrom(active, open) == k
  {
    if k < |active| {
      ReopenFromIs(active[..|active| - 1], open, k);
    }
  }

  /** Once the list is reconstructed there is nothing left to reconstruct. */
  lemma ReopenOnce(active: Entries, open: Stack, next: NodeId)
    ensures var k := ReopenFrom(active, open);
            ReopenFrom(Reopened(active, k, |active|, next), open + NewElements(active, k, |active|, next)) == |active|
  {
    var k := ReopenFrom(active, open);
    var after, stack := Reopened(active, k, |active|, next), open + NewElements(active, k, |active|, next);
    if active != [] {
      if k < |active| {
        assert stack[|open| + |active| - 1 - k] == after[|active| - 1].element;
      } else if active[|active| - 1].Formatting? {
        assert after[|active| - 1].element in stack;
      }
    }
  }
}
