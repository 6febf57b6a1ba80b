// The ready list and the semaphores' waiting lists in memory: intrusive lists of the general_tag that
// each PCB embeds (source/thread/thread.h:58-76, source/thread/sync.h:7-11). Addresses are word indices.
module ThreadLists {
  import opened Basics
  import opened LinkedList

  const PCB_PAGE := 1024
  const TAG := 8               // word of general_tag in struct task_struct

  function Tag(t: nat): nat { t + TAG }

  function Tags(ts: seq<nat>): (r: seq<nat>)
    ensures |r| == |ts| && forall i | 0 <= i < |ts| :: r[i] == Tag(ts[i])
  {
    if ts == [] then [] else Tags(ts[..|ts| - 1]) + [Tag(ts[|ts| - 1])]
  }

  lemma TagsOf(ts: seq<nat>, t: nat)
    ensures Tag(t) in Tags(ts) <==> t in ts
    ensures Tags(ts + [t]) == Tags(ts) + [Tag(t)] && Tags([t] + ts) == [Tag(t)] + Tags(ts)
    ensures ts != [] ==> Tags(ts)[0] == Tag(ts[0]) && Tags(ts)[1..] == Tags(ts[1..])
  {
    hide Tags;
    TagsMember(ts, t);
    assert Tags(ts + [t]) == Tags(ts) + [Tag(t)];
    assert Tags([t] + ts) == [Tag(t)] + Tags(ts);
    assert ts != [] ==> Tags(ts)[1..] == Tags(ts[1..]);
  }

  lemma TagsMember(ts: seq<nat>, t: nat)
    ensures Tag(t) in Tags(ts) <==> t in ts
  {
    hide Tags;
    if t in ts {
      var i :| 0 <= i < |ts| && ts[i] == t;
      assert Tags(ts)[i] == Tag(t);
    }
  }

  // The threads on each list, by the list's address.
  type Lists = map<nat, seq<nat>>

  // PCBs are pages; the lists' sentinels overlap neither each other nor a tag.
  ghost predicate Placed(heads: set<nat>, pcbs: set<nat>)
  {
    && (forall t | t in pcbs :: 0 < t && t % PCB_PAGE == 0)
    && (forall l | l in heads :: 0 < l)
    && (forall l, m | l in heads && m in heads && l != m :: l + 4 <= m || m + 4 <= l)
    && (forall l, t | l in heads && t in pcbs :: l + 4 <= Tag(t) || Tag(t) + 2 <= l)
  }

  // No tag is on two lists, or twice on one.
  ghost predicate Separate(lists: Lists, pcbs: set<nat>)
  {
    && (forall l | l in lists :: Distinct(lists[l]) && forall t | t in lists[l] :: t in pcbs)
    && (forall l, m, t | l in lists && m in lists && l != m && t in lists[l] :: t !in lists[m])
  }

  ghost predicate AllLinked(w: Memory, lists: Lists)
  {
    forall l | l in lists :: Linked(w, l, Tags(lists[l]))
  }

  ghost predicate ListsOk(w: Memory, lists: Lists, pcbs: set<nat>)
  {
    Placed(lists.Keys, pcbs) && Separate(lists, pcbs) && AllLinked(w, lists)
  }

  ghost predicate OnNoList(lists: Lists, t: nat)
  {
    forall l | l in lists :: t !in lists[l]
  }

  // The words of a list: its sentinels, and the tags of its threads.
  lemma NodeIs(l: nat, ts: seq<nat>, a: nat)
    requires Within(Nodes(l, Tags(ts)), a)
    ensures (l <= a < l + 4) || exists t :: t in ts && Tag(t) <= a < Tag(t) + 2
  {
    var f := Nodes(l, Tags(ts));
    var x := if a in f then a else a - 1;
    if x in Tags(ts) {
      var i :| 0 <= i < |ts| && Tags(ts)[i] == x;
      assert ts[i] in ts && x == Tag(ts[i]);
    }
  }

  // Work on one list with a tag that is on no other touches no other list.
  lemma OthersKept(w: Memory, w': Memory, lists: Lists, pcbs: set<nat>, l: nat, t: nat, m: nat)
    requires ListsOk(w, lists, pcbs) && l in lists && m in lists && m != l && t in pcbs && t !in lists[m]
    requires forall a: nat | !Within(Nodes(l, Tags(lists[l])), a) && !(Tag(t) <= a < Tag(t) + 2) :: Load(w', a) == Load(w, a)
    ensures Linked(w', m, Tags(lists[m]))
  {
    forall a: nat | Within(Nodes(m, Tags(lists[m])), a) ensures Load(w', a) == Load(w, a) {
      NodeIs(m, lists[m], a);
      WordOwner(lists, pcbs, l, m, t, a);
    }
    LinkedFrame(w, w', m, Tags(lists[m]));
  }

  lemma WordOwner(lists: Lists, pcbs: set<nat>, l: nat, m: nat, t: nat, a: nat)
    requires Placed(lists.Keys, pcbs) && Separate(lists, pcbs) && l in lists && m in lists && m != l && t in pcbs && t !in lists[m]
    requires (m <= a < m + 4) || exists u :: u in lists[m] && Tag(u) <= a < Tag(u) + 2
    ensures !Within(Nodes(l, Tags(lists[l])), a) && !(Tag(t) <= a < Tag(t) + 2)
  {
    hide Within, Nodes, Tags, Separate, Placed;
    if m <= a < m + 4 {
      HeadOwner(lists, pcbs, l, m, t, a);
    } else {
      var u :| u in lists[m] && Tag(u) <= a < Tag(u) + 2;
      TagOwner(lists, pcbs, l, m, t, u, a);
    }
  }

  lemma HeadOwner(lists: Lists, pcbs: set<nat>, l: nat, m: nat, t: nat, a: nat)
    requires Placed(lists.Keys, pcbs) && Separate(lists, pcbs) && l in lists && m in lists && m != l && t in pcbs && m <= a < m + 4
    ensures !Within(Nodes(l, Tags(lists[l])), a) && !(Tag(t) <= a < Tag(t) + 2)
  {
    if Within(Nodes(l, Tags(lists[l])), a) { NodeIs(l, lists[l], a); }
  }

  lemma TagOwner(lists: Lists, pcbs: set<nat>, l: nat, m: nat, t: nat, u: nat, a: nat)
    requires Placed(lists.Keys, pcbs) && Separate(lists, pcbs) && l in lists && m in lists && m != l && t in pcbs && t !in lists[m]
    requires u in lists[m] && Tag(u) <= a < Tag(u) + 2
    ensures !Within(Nodes(l, Tags(lists[l])), a) && !(Tag(t) <= a < Tag(t) + 2)
  {
    assert u in pcbs && u !in lists[l];
    TagsFar(pcbs, t, u);
    if Within(Nodes(l, Tags(lists[l])), a) {
      NodeIs(l, lists[l], a);
      hide Within, Nodes, Tags;
      if x :| x in lists[l] && Tag(x) <= a < Tag(x) + 2 { TagsFar(pcbs, x, u); }
    }
  }

  lemma TagsFar(pcbs: set<nat>, t: nat, u: nat)
    requires t in pcbs && u in pcbs && t != u && forall x | x in pcbs :: x % PCB_PAGE == 0
    ensures Tag(t) + 2 <= Tag(u) || Tag(u) + 2 <= Tag(t)
  {
  }

  // A tag on no list is apart from every node of a list.
  lemma TagApart(lists: Lists, pcbs: set<nat>, l: nat, t: nat)
    requires Placed(lists.Keys, pcbs) && Separate(lists, pcbs) && l in lists && t in pcbs && t !in lists[l]
    ensures Tag(t) != 0 && forall x | x in Nodes(l, Tags(lists[l])) :: Apart(Tag(t), x)
  {
    forall x | x in Nodes(l, Tags(lists[l])) ensures Apart(Tag(t), x) {
      if x in Tags(lists[l]) {
        var i :| 0 <= i < |lists[l]| && Tags(lists[l])[i] == x;
        assert lists[l][i] in lists[l] && lists[l][i] in pcbs;
      }
    }
  }

  // A list changed, the others as they were.
  lemma Changed(w: Memory, w': Memory, lists: Lists, pcbs: set<nat>, l: nat, t: nat, ts: seq<nat>)
    requires ListsOk(w, lists, pcbs) && l in lists && t in pcbs && (forall m | m in lists && m != l :: t !in lists[m])
    requires forall a: nat | !Within(Nodes(l, Tags(lists[l])), a) && !(Tag(t) <= a < Tag(t) + 2) :: Load(w', a) == Load(w, a)
    requires Linked(w', l, Tags(ts)) && Distinct(ts) && forall u | u in ts :: u == t || u in lists[l]
    ensures ListsOk(w', lists[l := ts], pcbs)
  {
    hide Linked, Within, Nodes, Placed, Tags;
    var after := lists[l := ts];
    assert after.Keys == lists.Keys;
    StillSeparate(lists, pcbs, l, t, ts);
    hide Separate;
    forall m | m in after ensures Linked(w', m, Tags(after[m])) {
      if m != l { OthersKept(w, w', lists, pcbs, l, t, m); }
    }
  }

  lemma StillSeparate(lists: Lists, pcbs: set<nat>, l: nat, t: nat, ts: seq<nat>)
    requires Separate(lists, pcbs) && l in lists && t in pcbs && (forall m | m in lists && m != l :: t !in lists[m])
    requires Distinct(ts) && forall u | u in ts :: u == t || u in lists[l]
    ensures Separate(lists[l := ts], pcbs)
  {
  }

  // How elem_find ends: the element is found or not, or the ASSERT of list.c:77 fails on NULL.
  datatype ScanEnd = Present | Absent | StopsAtNull

  // What follows the i-th node of a list; behind the tail there is NULL.
  lemma NextNode(w: Memory, l: nat, es: seq<nat>, i: nat)
    requires Linked(w, l, es) && i < |es|
    ensures es[i] != 0 && es[i] != l + 2 && Load(w, es[i] + 1) == (if i + 1 < |es| then es[i + 1] else l + 2)
    ensures Load(w, l + 3) == 0 && l + 2 != 0
  {
    var f := Nodes(l, es);
    var a, b := i + 1, i + 2;
    assert f[a] == es[i] && f[b] == (if i + 1 < |es| then es[i + 1] else l + 2);
    TailIsLast(l, es, i + 1);
    assert f[a] in f && f[|f| - 1] == l + 2;
  }

  // No tag is the tail of a list, and no list's tail that of another.
  lemma TailIsNoTag(lists: Lists, pcbs: set<nat>, l: nat, m: nat, t: nat)
    requires Placed(lists.Keys, pcbs) && l in lists && m in lists && t in pcbs
    ensures Tag(t) != l + 2 && Tag(t) != 0 && (l != m ==> l + 2 != m + 2)
  {
  }

  // The lists of one CPU.
  class Queues {
    const ram: Ram
    ghost var lists: Lists
    ghost var pcbs: set<nat>

    ghost predicate Valid()
      reads this, ram
    {
      ListsOk(ram.w, lists, pcbs)
    }

    constructor (ram: Ram, ghost lists: Lists, ghost pcbs: set<nat>)
      requires ListsOk(ram.w, lists, pcbs)
      ensures this.ram == ram && this.lists == lists && this.pcbs == pcbs && Valid()
    {
      this.ram, this.lists, this.pcbs := ram, lists, pcbs;
    }

    method Append(l: nat, t: nat)
      requires Valid() && l in lists && t in pcbs && OnNoList(lists, t)
      modifies this`lists, ram
      ensures Valid() && lists == old(lists)[l := old(lists)[l] + [t]]
    {
      hide Linked, Within, Nodes, Placed;
      ghost var w, ts := ram.w, lists[l];
      TagApart(lists, pcbs, l, t);
      ram.ListAppend(l, Tag(t), Tags(ts));
      TagsOf(ts, t);
      Changed(w, ram.w, lists, pcbs, l, t, ts + [t]);
      lists := lists[l := ts + [t]];
    }

    method Push(l: nat, t: nat)
      requires Valid() && l in lists && t in pcbs && OnNoList(lists, t)
      modifies this`lists, ram
      ensures Valid() && lists == old(lists)[l := [t] + old(lists)[l]]
    {
      hide Linked, Within, Nodes, Placed;
      ghost var w, ts := ram.w, lists[l];
      TagApart(lists, pcbs, l, t);
      ram.ListPush(l, Tag(t), Tags(ts));
      TagsOf(ts, t);
      Changed(w, ram.w, lists, pcbs, l, t, [t] + ts);
      lists := lists[l := [t] + ts];
    }

    // list_pop and elem2entry
    method Pop(l: nat) returns (t: nat)
      requires Valid() && l in lists && lists[l] != []
      modifies this`lists, ram
      ensures Valid() && t == old(lists)[l][0] && lists == old(lists)[l := old(lists)[l][1..]]
      ensures t in pcbs && OnNoList(lists, t)
    {
      hide Linked, Within, Nodes, Placed;
      ghost var w, ts := ram.w, lists[l];
      TagsOf(ts, 0);
      var e := ram.ListPop(l, Tags(ts));
      t := e - TAG;
      Popped(lists, pcbs, l);
      Changed(w, ram.w, lists, pcbs, l, t, ts[1..]);
      lists := lists[l := ts[1..]];
    }

    // elem_find
    method Has(l: nat, t: nat) returns (found: bool)
      requires Valid() && l in lists
      ensures found <==> t in lists[l]
    {
      TagsOf(lists[l], t);
      found := ram.ElemFind(l, Tag(t), Tags(lists[l]));
    }

    method IsEmpty(l: nat) returns (empty: bool)
      requires Valid() && l in lists
      ensures empty <==> lists[l] == []
    {
      empty := ram.ListEmpty(l, Tags(lists[l]));
      assert Tags(lists[l]) == [] <==> lists[l] == [];
    }

    // list.c:75-84 for list l, resumed on the tag of the i-th thread of list m, in a memory that does
    // not change any more: a scan that has been carried off its list runs into NULL.
    method ResumeScan(l: nat, on: nat, obj: nat, ghost m: nat, ghost i: nat) returns (r: ScanEnd)
      requires Valid() && l in lists && m in lists && i < |lists[m]| && on == lists[m][i]
      requires Placed(lists.Keys, pcbs + {obj}) && OnNoList(lists, obj)
      ensures r == if m == l then Absent else StopsAtNull
    {
      hide Linked, Placed, Separate, OnNoList, Tags;
      var elem := Tag(on);
      ghost var j, es := i, Tags(lists[m]);
      while elem != l + 2
        invariant i <= j <= |es| + 1
        invariant j < |es| ==> elem == es[j]
        invariant j == |es| ==> elem == m + 2
        invariant j == |es| + 1 ==> elem == 0 && m != l
        decreases |es| + 1 - j
      {
        if elem == 0 { Ended(l, m, obj, j); return StopsAtNull; }
        Ended(l, m, obj, j);
        if elem == Tag(obj) { return Present; }
        elem := Load(ram.w, elem + 1);
        j := j + 1;
      }
      Ended(l, m, obj, j);
      return Absent;
    }

    // Where the scan stands.
    lemma Ended(l: nat, m: nat, obj: nat, j: nat)
      requires Valid() && l in lists && m in lists && Placed(lists.Keys, pcbs + {obj}) && OnNoList(lists, obj)
      ensures l + 2 != 0 && Tag(obj) != m + 2 && Tag(obj) != 0 && (l != m ==> l + 2 != m + 2) && Load(ram.w, m + 3) == 0
      ensures var es := Tags(lists[m]);
              j < |es| ==> && es[j] != 0 && es[j] != l + 2 && es[j] != Tag(obj)
                           && Load(ram.w, es[j] + 1) == if j + 1 < |es| then es[j + 1] else m + 2
    {
      TailIsNoTag(lists, pcbs + {obj}, m, l, obj);
      assert Linked(ram.w, m, Tags(lists[m])) && Linked(ram.w, l, Tags(lists[l]));
      if j < |lists[m]| {
        NextNode(ram.w, m, Tags(lists[m]), j);
        assert lists[m][j] in lists[m] && lists[m][j] in pcbs;
        TailIsNoTag(lists, pcbs, l, l, lists[m][j]);
      }
    }

    // A new PCB, on a page that overlaps no list.
    ghost method Adopt(t: nat)
      requires Valid() && Placed(lists.Keys, pcbs + {t})
      modifies this`pcbs
      ensures Valid() && pcbs == old(pcbs) + {t}
    {
      pcbs := pcbs + {t};
    }
  }

  lemma Popped(lists: Lists, pcbs: set<nat>, l: nat)
    requires Separate(lists, pcbs) && l in lists && lists[l] != []
    ensures var t, ts := lists[l][0], lists[l][1..];
            && t in pcbs && Distinct(ts) && OnNoList(lists[l := ts], t)
            && (forall m | m in lists && m != l :: t !in lists[m]) && (forall u | u in ts :: u in lists[l])
  {
    var t, ts := lists[l][0], lists[l][1..];
    assert t in lists[l];
    assert forall i | 0 <= i < |ts| :: ts[i] == lists[l][i + 1];
  }
}
