// Intrusive doubly linked lists in a flat word memory (source/lib/kernel/list.c and list.h).
// An address is a word index; a list_elem at e is two words, prev at e and next at e + 1; a list
// at l is its head element at l and its tail element at l + 2. NULL is 0.
module LinkedList {
  import opened Basics

  // The elements at d and e do not overlap.
  predicate Apart(d: nat, e: nat)
  {
    d + 1 < e || e + 1 < d
  }

  function Nodes(l: nat, elems: seq<nat>): seq<nat>
  {
    [l] + elems + [l + 2]
  }

  ghost predicate AllApart(f: seq<nat>)
  {
    forall i, j | 0 <= i < j < |f| :: Apart(f[i], f[j])
  }

  // prev and next are mutually inverse along f.
  ghost predicate Chained(m: Memory, f: seq<nat>)
  {
    forall i, j | 0 <= i && j == i + 1 && j < |f| :: Load(m, f[i] + 1) == f[j] && Load(m, f[j]) == f[i]
  }

  // The list at l holds exactly these elements in this order.
  ghost predicate Linked(m: Memory, l: nat, elems: seq<nat>)
  {
    var f := Nodes(l, elems);
    AllApart(f) && Chained(m, f) && 0 !in f && Load(m, l) == 0 && Load(m, l + 3) == 0
  }

  // a is a word of one of the elements.
  ghost predicate Within(f: seq<nat>, a: nat)
  {
    a in f || (0 < a && a - 1 in f)
  }

  // A list depends on its own words only.
  lemma LinkedFrame(m: Memory, m': Memory, l: nat, elems: seq<nat>)
    requires Linked(m, l, elems)
    requires forall a: nat | Within(Nodes(l, elems), a) :: Load(m', a) == Load(m, a)
    ensures Linked(m', l, elems)
  {
    var f := Nodes(l, elems);
    forall i, j | 0 <= i && j == i + 1 && j < |f| ensures Load(m', f[i] + 1) == f[j] && Load(m', f[j]) == f[i] {
      assert f[i] in f && f[j] in f;
      assert Within(f, f[i] + 1) && Within(f, f[j]);
    }
    assert f[0] == l && f[|f| - 1] == l + 2;
    assert Within(f, l) && Within(f, l + 3);
  }

  // What a list means determines it.
  lemma LinkedUnique(m: Memory, l: nat, e1: seq<nat>, e2: seq<nat>)
    requires Linked(m, l, e1) && Linked(m, l, e2)
    ensures e1 == e2
  {
    var f, g := Nodes(l, e1), Nodes(l, e2);
    var n := if |f| <= |g| then |f| - 1 else |g| - 1;
    assert f[0] == l == g[0];
    SameAt(m, f, g, n);
    TailIsLast(l, e1, n);
    TailIsLast(l, e2, n);
    forall i: nat | i < |f| ensures f[i] == g[i] { SameAt(m, f, g, i); }
    assert e1 == f[1..|f| - 1] && e2 == g[1..|g| - 1];
  }

  lemma {:induction false} SameAt(m: Memory, f: seq<nat>, g: seq<nat>, i: nat)
    requires Chained(m, f) && Chained(m, g) && i < |f| && i < |g| && f[0] == g[0]
    ensures f[i] == g[i]
  {
    if i > 0 {
      var a, b := i - 1, i;
      SameAt(m, f, g, a);
      assert Load(m, f[a] + 1) == f[b] && Load(m, g[a] + 1) == g[b];
    }
  }

  // The four stores of list_insert_before (list.c:27-35), and the two of list_remove (57-58).
  function Spliced(m: Memory, before: nat, elem: nat): Memory
  {
    var m1 := m[Load(m, before) + 1 := elem];
    var m2 := m1[elem := Load(m1, before)];
    var m3 := m2[elem + 1 := before];
    m3[before := elem]
  }

  function Unlinked(m: Memory, e: nat): Memory
  {
    var m1 := m[Load(m, e) + 1 := Load(m, e + 1)];
    m1[Load(m1, e + 1) := Load(m1, e)]
  }

  lemma SplicedAt(m: Memory, prev: nat, before: nat, elem: nat, a: nat)
    requires Load(m, before) == prev && Apart(prev, before) && Apart(elem, prev) && Apart(elem, before)
    ensures Load(Spliced(m, before, elem), a) ==
            if a == before then elem else if a == elem + 1 then before else if a == elem then prev
            else if a == prev + 1 then elem else Load(m, a)
  {
  }

  lemma UnlinkedAt(m: Memory, prev: nat, e: nat, next: nat, a: nat)
    requires Load(m, e) == prev && Load(m, e + 1) == next && Apart(prev, e) && Apart(e, next) && Apart(prev, next)
    ensures Load(Unlinked(m, e), a) ==
            if a == next then prev else if a == prev + 1 then next else Load(m, a)
  {
  }

  // elem becomes the k-th element, before the node that was k-th.
  lemma SplicedLinks(m: Memory, l: nat, elems: seq<nat>, k: nat, elem: nat)
    requires Linked(m, l, elems) && k <= |elems| && elem != 0
    requires forall x | x in Nodes(l, elems) :: Apart(elem, x)
    ensures var m' := Spliced(m, Nodes(l, elems)[k + 1], elem);
            && Linked(m', l, elems[..k] + [elem] + elems[k..])
            && forall a: nat | !Within(Nodes(l, elems), a) && a != elem && a != elem + 1 :: Load(m', a) == Load(m, a)
  {
    var f := Nodes(l, elems);
    var g := Nodes(l, elems[..k] + [elem] + elems[k..]);
    assert g == f[..k + 1] + [elem] + f[k + 1..];
    SplicedChain(m, f, k, elem);
    SplicedApart(f, k, elem);
    SplicedEnds(m, l, elems, k, elem);
    SplicedFrame(m, f, k, elem);
  }

  lemma SplicedChain(m: Memory, f: seq<nat>, k: nat, elem: nat)
    requires AllApart(f) && Chained(m, f) && k + 1 < |f| && forall x | x in f :: Apart(elem, x)
    ensures Chained(Spliced(m, f[k + 1], elem), f[..k + 1] + [elem] + f[k + 1..])
  {
    var g := f[..k + 1] + [elem] + f[k + 1..];
    var m' := Spliced(m, f[k + 1], elem);
    forall i, j | 0 <= i && j == i + 1 && j < |g| ensures Load(m', g[i] + 1) == g[j] && Load(m', g[j]) == g[i] {
      SplicedLink(m, f, k, elem, i);
    }
  }

  lemma SplicedEnds(m: Memory, l: nat, elems: seq<nat>, k: nat, elem: nat)
    requires Linked(m, l, elems) && k <= |elems| && forall x | x in Nodes(l, elems) :: Apart(elem, x)
    ensures var m' := Spliced(m, Nodes(l, elems)[k + 1], elem);
            Load(m', l) == 0 && Load(m', l + 3) == 0
  {
    var f := Nodes(l, elems);
    NodeFacts(m, f, k, elem);
    assert f[0] == l && f[|f| - 1] == l + 2;
    assert f[0] in f && f[|f| - 1] in f;
    assert Apart(f[0], f[k + 1]) && Apart(f[k], f[|f| - 1]);
    SplicedAt(m, f[k], f[k + 1], elem, l);
    SplicedAt(m, f[k], f[k + 1], elem, l + 3);
  }

  lemma SplicedFrame(m: Memory, f: seq<nat>, k: nat, elem: nat)
    requires AllApart(f) && Chained(m, f) && k + 1 < |f| && forall x | x in f :: Apart(elem, x)
    ensures forall a: nat | !Within(f, a) && a != elem && a != elem + 1 :: Load(Spliced(m, f[k + 1], elem), a) == Load(m, a)
  {
    NodeFacts(m, f, k, elem);
    forall a: nat | !Within(f, a) && a != elem && a != elem + 1
      ensures Load(Spliced(m, f[k + 1], elem), a) == Load(m, a)
    {
      SplicedAt(m, f[k], f[k + 1], elem, a);
    }
  }

  lemma NodeFacts(m: Memory, f: seq<nat>, k: nat, elem: nat)
    requires AllApart(f) && Chained(m, f) && k + 1 < |f|
    requires forall x | x in f :: Apart(elem, x)
    ensures f[k] in f && f[k + 1] in f && Load(m, f[k + 1]) == f[k] && Load(m, f[k] + 1) == f[k + 1]
    ensures Apart(f[k], f[k + 1]) && Apart(elem, f[k]) && Apart(elem, f[k + 1])
  {
    assert f[k] in f && f[k + 1] in f;
  }

  lemma SplicedApart(f: seq<nat>, k: nat, elem: nat)
    requires AllApart(f) && k + 1 < |f|
    requires forall x | x in f :: Apart(elem, x)
    ensures AllApart(f[..k + 1] + [elem] + f[k + 1..])
  {
    var g := f[..k + 1] + [elem] + f[k + 1..];
    forall i, j | 0 <= i < j < |g| ensures Apart(g[i], g[j]) {
      if i == k + 1 {
        assert g[j] == f[j - 1] && f[j - 1] in f;
      } else if j == k + 1 {
        assert g[i] == f[i] && f[i] in f;
      } else {
        assert g[i] == f[if i <= k then i else i - 1] && g[j] == f[if j <= k then j else j - 1];
      }
    }
  }

  // One link of the spliced chain.
  lemma SplicedLink(m: Memory, f: seq<nat>, k: nat, elem: nat, i: nat)
    requires AllApart(f) && Chained(m, f) && k + 1 < |f|
    requires forall x | x in f :: Apart(elem, x)
    requires i < |f|
    ensures var g := f[..k + 1] + [elem] + f[k + 1..];
            var m' := Spliced(m, f[k + 1], elem);
            Load(m', g[i] + 1) == g[i + 1] && Load(m', g[i + 1]) == g[i]
  {
    var g := f[..k + 1] + [elem] + f[k + 1..];
    if i < k {
      OldLink(m, f, k, elem, i);
      assert g[i] == f[i] && g[i + 1] == f[i + 1];
    } else if i > k + 1 {
      OldLink(m, f, k, elem, i - 1);
      assert g[i] == f[i - 1] && g[i + 1] == f[i];
    } else {
      NodeFacts(m, f, k, elem);
      NewLinks(m, f[k], f[k + 1], elem);
      assert i == k ==> g[i] == f[k] && g[i + 1] == elem;
      assert i == k + 1 ==> g[i] == elem && g[i + 1] == f[k + 1];
    }
  }

  // A link elsewhere in the chain is kept.
  lemma OldLink(m: Memory, f: seq<nat>, k: nat, elem: nat, i: nat)
    requires AllApart(f) && Chained(m, f) && k + 1 < |f| && i + 1 < |f| && i != k
    requires forall x | x in f :: Apart(elem, x)
    ensures var m' := Spliced(m, f[k + 1], elem);
            Load(m', f[i] + 1) == f[i + 1] && Load(m', f[i + 1]) == f[i]
  {
    NodeFacts(m, f, k, elem);
    NodeFacts(m, f, i, elem);
    SplicedAt(m, f[k], f[k + 1], elem, f[i] + 1);
    SplicedAt(m, f[k], f[k + 1], elem, f[i + 1]);
    hide Spliced, Load;
    if i < k {
      assert Apart(f[i], f[k]) && Apart(f[i], f[k + 1]) && Apart(f[i + 1], f[k + 1]);
    } else {
      assert Apart(f[k], f[i]) && Apart(f[k], f[i + 1]) && Apart(f[k + 1], f[i + 1]);
    }
  }

  lemma NewLinks(m: Memory, prev: nat, before: nat, elem: nat)
    requires Load(m, before) == prev && Apart(prev, before) && Apart(elem, prev) && Apart(elem, before)
    ensures var m' := Spliced(m, before, elem);
            Load(m', prev + 1) == elem && Load(m', elem) == prev && Load(m', elem + 1) == before && Load(m', before) == elem
  {
    SplicedAt(m, prev, before, elem, prev + 1);
    SplicedAt(m, prev, before, elem, elem);
    SplicedAt(m, prev, before, elem, elem + 1);
    SplicedAt(m, prev, before, elem, before);
    hide Spliced;
  }

  // The k-th element leaves the list.
  lemma UnlinkedLinks(m: Memory, l: nat, elems: seq<nat>, k: nat)
    requires Linked(m, l, elems) && k < |elems|
    ensures var m' := Unlinked(m, elems[k]);
            && Linked(m', l, elems[..k] + elems[k + 1..])
            && forall a: nat | !Within(Nodes(l, elems), a) :: Load(m', a) == Load(m, a)
  {
    var f := Nodes(l, elems);
    var g := Nodes(l, elems[..k] + elems[k + 1..]);
    assert g == f[..k + 1] + f[k + 2..] && f[k + 1] == elems[k];
    UnlinkedChain(m, f, k);
    UnlinkedEnds(m, l, elems, k);
    UnlinkedFrame(m, f, k);
  }

  lemma UnlinkedChain(m: Memory, f: seq<nat>, k: nat)
    requires AllApart(f) && Chained(m, f) && k + 2 < |f|
    ensures Chained(Unlinked(m, f[k + 1]), f[..k + 1] + f[k + 2..]) && AllApart(f[..k + 1] + f[k + 2..])
  {
    var g := f[..k + 1] + f[k + 2..];
    var m' := Unlinked(m, f[k + 1]);
    forall i, j | 0 <= i && j == i + 1 && j < |g| ensures Load(m', g[i] + 1) == g[j] && Load(m', g[j]) == g[i] {
      UnlinkedLink(m, f, k, i);
    }
    forall i, j | 0 <= i < j < |g| ensures Apart(g[i], g[j]) {
      assert g[i] == f[if i <= k then i else i + 1] && g[j] == f[if j <= k then j else j + 1];
    }
  }

  lemma UnlinkedEnds(m: Memory, l: nat, elems: seq<nat>, k: nat)
    requires Linked(m, l, elems) && k < |elems|
    ensures var m' := Unlinked(m, Nodes(l, elems)[k + 1]);
            Load(m', l) == 0 && Load(m', l + 3) == 0
  {
    var f := Nodes(l, elems);
    UnlinkFacts(m, f, k);
    assert f[0] == l && f[|f| - 1] == l + 2;
    assert Apart(f[0], f[k + 2]) && Apart(f[k], f[|f| - 1]);
    UnlinkedAt(m, f[k], f[k + 1], f[k + 2], l);
    UnlinkedAt(m, f[k], f[k + 1], f[k + 2], l + 3);
  }

  lemma UnlinkedFrame(m: Memory, f: seq<nat>, k: nat)
    requires AllApart(f) && Chained(m, f) && k + 2 < |f|
    ensures forall a: nat | !Within(f, a) :: Load(Unlinked(m, f[k + 1]), a) == Load(m, a)
  {
    UnlinkFacts(m, f, k);
    forall a: nat | !Within(f, a) ensures Load(Unlinked(m, f[k + 1]), a) == Load(m, a) {
      assert f[k] in f && f[k + 2] in f;
      UnlinkedAt(m, f[k], f[k + 1], f[k + 2], a);
    }
  }

  lemma UnlinkFacts(m: Memory, f: seq<nat>, k: nat)
    requires AllApart(f) && Chained(m, f) && k + 2 < |f|
    ensures Load(m, f[k + 1]) == f[k] && Load(m, f[k + 1] + 1) == f[k + 2]
    ensures Apart(f[k], f[k + 1]) && Apart(f[k + 1], f[k + 2]) && Apart(f[k], f[k + 2])
  {
  }

  lemma UnlinkedLink(m: Memory, f: seq<nat>, k: nat, i: nat)
    requires AllApart(f) && Chained(m, f) && k + 2 < |f| && i + 2 < |f|
    ensures var g := f[..k + 1] + f[k + 2..];
            var m' := Unlinked(m, f[k + 1]);
            Load(m', g[i] + 1) == g[i + 1] && Load(m', g[i + 1]) == g[i]
  {
    var g := f[..k + 1] + f[k + 2..];
    var e, prev, next := f[k + 1], f[k], f[k + 2];
    UnlinkFacts(m, f, k);
    UnlinkedAt(m, prev, e, next, g[i] + 1);
    UnlinkedAt(m, prev, e, next, g[i + 1]);
    if i < k {
      assert g[i] == f[i] && g[i + 1] == f[i + 1];
      assert Load(m, f[i] + 1) == f[i + 1] && Load(m, f[i + 1]) == f[i];
      assert Apart(f[i], f[k]) && Apart(f[i + 1], f[k + 2]) && Apart(f[i], f[k + 2]);
    } else if i > k {
      assert g[i] == f[i + 1] && g[i + 1] == f[i + 2];
      assert Load(m, f[i + 1] + 1) == f[i + 2] && Load(m, f[i + 2]) == f[i + 1];
      assert Apart(f[k], f[i + 1]) && Apart(f[k], f[i + 2]) && Apart(f[k + 2], f[i + 2]);
    }
  }

  // ----- the operations

  class Ram {
    var w: Memory

    // list.c:11-17
    method ListInit(l: nat)
      requires 0 < l
      modifies this
      ensures Linked(w, l, [])
      ensures forall a: nat | !(l <= a < l + 4) :: Load(w, a) == old(Load(w, a))
    {
      w := w[l := 0];
      w := w[l + 1 := l + 2];
      w := w[l + 2 := l];
      w := w[l + 3 := 0];
      assert Nodes(l, []) == [l, l + 2];
    }

    // list.c:20-38
    method ListInsertBefore(before: nat, elem: nat)
      modifies this
      ensures w == Spliced(old(w), before, elem)
    {
      w := w[Load(w, before) + 1 := elem];
      w := w[elem := Load(w, before)];
      w := w[elem + 1 := before];
      w := w[before := elem];
    }

    // list.c:41-44
    method ListPush(l: nat, elem: nat, ghost elems: seq<nat>)
      requires Linked(w, l, elems) && elem != 0 && forall x | x in Nodes(l, elems) :: Apart(elem, x)
      modifies this
      ensures Linked(w, l, [elem] + elems)
      ensures forall a: nat | !Within(Nodes(l, elems), a) && a != elem && a != elem + 1 :: Load(w, a) == old(Load(w, a))
    {
      assert Nodes(l, elems)[0] == l && Load(w, l + 1) == Nodes(l, elems)[1];
      hide Spliced, Linked, Apart, Load;
      SplicedLinks(w, l, elems, 0, elem);
      assert elems[..0] + [elem] + elems[0..] == [elem] + elems;
      ListInsertBefore(Load(w, l + 1), elem);
    }

    // list.c:47-50
    method ListAppend(l: nat, elem: nat, ghost elems: seq<nat>)
      requires Linked(w, l, elems) && elem != 0 && forall x | x in Nodes(l, elems) :: Apart(elem, x)
      modifies this
      ensures Linked(w, l, elems + [elem])
      ensures forall a: nat | !Within(Nodes(l, elems), a) && a != elem && a != elem + 1 :: Load(w, a) == old(Load(w, a))
    {
      hide Spliced, Linked, Apart;
      SplicedLinks(w, l, elems, |elems|, elem);
      assert elems[..|elems|] + [elem] + elems[|elems|..] == elems + [elem];
      ListInsertBefore(l + 2, elem);
    }

    // list.c:53-61
    method ListRemove(e: nat, ghost l: nat, ghost elems: seq<nat>, ghost k: nat)
      requires Linked(w, l, elems) && k < |elems| && elems[k] == e
      modifies this
      ensures Linked(w, l, elems[..k] + elems[k + 1..])
      ensures forall a: nat | !Within(Nodes(l, elems), a) :: Load(w, a) == old(Load(w, a))
    {
      UnlinkedLinks(w, l, elems, k);
      w := w[Load(w, e) + 1 := Load(w, e + 1)];
      w := w[Load(w, e + 1) := Load(w, e)];
    }

    // list.c:64-69; on an empty list the source would unlink the tail and store through NULL.
    method ListPop(l: nat, ghost elems: seq<nat>) returns (e: nat)
      requires Linked(w, l, elems) && elems != []
      modifies this
      ensures e == elems[0] && Linked(w, l, elems[1..])
      ensures forall a: nat | !Within(Nodes(l, elems), a) :: Load(w, a) == old(Load(w, a))
    {
      assert Nodes(l, elems)[0] == l && Nodes(l, elems)[1] == elems[0];
      e := Load(w, l + 1);
      assert elems[..0] + elems[0 + 1..] == elems[1..];
      ListRemove(e, l, elems, 0);
    }

    // list.c:72-85
    method ElemFind(l: nat, obj: nat, ghost elems: seq<nat>) returns (found: bool)
      requires Linked(w, l, elems)
      ensures found <==> obj in elems
    {
      ghost var f := Nodes(l, elems);
      assert f[0] == l;
      var elem := Load(w, l + 1);
      ghost var i := 1;
      while elem != l + 2
        invariant 1 <= i < |f| && elem == f[i]
        invariant obj !in f[1..i]
        decreases |f| - i
      {
        assert elem != 0 && i < |f| - 1;
        assert elem == elems[i - 1];
        if elem == obj { return true; }
        elem := Load(w, elem + 1);
        i := i + 1;
        assert f[1..i] == f[1..i - 1] + [f[i - 1]];
      }
      TailIsLast(l, elems, i);
      assert f[1..i] == elems;
      return false;
    }

    // list.c:112-122
    method ListLen(l: nat, ghost elems: seq<nat>) returns (n: nat)
      requires Linked(w, l, elems)
      ensures n == |elems|
    {
      ghost var f := Nodes(l, elems);
      assert f[0] == l;
      var elem := Load(w, l + 1);
      n := 0;
      while elem != l + 2
        invariant n + 1 < |f| && elem == f[n + 1]
        decreases |f| - n
      {
        n := n + 1;
        elem := Load(w, elem + 1);
      }
      TailIsLast(l, elems, n + 1);
    }

    // list.c:125-128
    method ListEmpty(l: nat, ghost elems: seq<nat>) returns (empty: bool)
      requires Linked(w, l, elems)
      ensures empty <==> elems == []
    {
      TailIsLast(l, elems, 1);
      assert Nodes(l, elems)[0] == l && Load(w, Nodes(l, elems)[0] + 1) == Nodes(l, elems)[1];
      empty := Load(w, l + 1) == l + 2;
    }
  }

  lemma TailIsLast(l: nat, elems: seq<nat>, i: nat)
    requires AllApart(Nodes(l, elems)) && i < |Nodes(l, elems)|
    ensures Nodes(l, elems)[i] == l + 2 <==> i == |elems| + 1
  {
    var f := Nodes(l, elems);
    if i < |f| - 1 { assert Apart(f[i], f[|f| - 1]); }
  }
}
