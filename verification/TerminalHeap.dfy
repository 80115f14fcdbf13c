/** The retention heap (internal/taskstore/memory.go:534-563) under the sift-up and sift-down
    of Go's container/heap, first on values, then in place on shared records. */
module TerminalHeap {
  import opened Tasks

  /** What the heap compares: a record's id and the FinishedAt it carries. */
  datatype Slot = Slot(id: TaskID, at: Time)

  function Parent(k: nat): nat
    requires k > 0
  {
    (k - 1) / 2
  }

  function Swapped<T>(h: seq<T>, i: nat, j: nat): (r: seq<T>)
    requires i < |h| && j < |h|
    ensures |r| == |h|
  {
    h[i := h[j]][j := h[i]]
  }

  /** container/heap `up`. */
  function SiftUp(h: seq<Slot>, j: nat): (r: seq<Slot>)
    requires j < |h|
    ensures |r| == |h|
    decreases j
  {
    if j == 0 || !(h[j].at < h[Parent(j)].at) then h
    else SiftUp(Swapped(h, Parent(j), j), Parent(j))
  }

  /** The child `down` compares with: the left one unless the right one is strictly less. */
  function SmallerChild(h: seq<Slot>, i: nat, n: nat): (c: nat)
    requires 2 * i + 1 < n <= |h|
    ensures c == 2 * i + 1 || (c == 2 * i + 2 && c < n)
  {
    if 2 * i + 2 < n && h[2 * i + 2].at < h[2 * i + 1].at then 2 * i + 2 else 2 * i + 1
  }

  /** container/heap `down`, on the first n places. */
  function SiftDown(h: seq<Slot>, i: nat, n: nat): (r: seq<Slot>)
    requires i <= n <= |h|
    ensures |r| == |h|
    decreases n - i
  {
    if 2 * i + 1 >= n then h
    else
      var c := SmallerChild(h, i, n);
      if !(h[c].at < h[i].at) then h else SiftDown(Swapped(h, i, c), c, n)
  }

  lemma SiftDownStep(h: seq<Slot>, i: nat, n: nat)
    requires i <= n <= |h|
    ensures 2 * i + 1 >= n ==> SiftDown(h, i, n) == h
    ensures 2 * i + 1 < n ==>
              var c := SmallerChild(h, i, n);
              SiftDown(h, i, n) == if !(h[c].at < h[i].at) then h else SiftDown(Swapped(h, i, c), c, n)
  {
  }

  lemma SwapSuffix<T>(h: seq<T>, i: nat, j: nat, n: nat)
    requires i < n <= |h| && j < n
    ensures Swapped(h, i, j)[n..] == h[n..]
  {
  }

  function Push(h: seq<Slot>, s: Slot): (r: seq<Slot>)
    ensures |r| == |h| + 1
  {
    SiftUp(h + [s], |h|)
  }

  function PopOrder(h: seq<Slot>): (r: seq<Slot>)
    requires |h| > 0
    ensures |r| == |h|
  {
    SiftDown(Swapped(h, 0, |h| - 1), 0, |h| - 1)
  }

  function PopRest(h: seq<Slot>): (r: seq<Slot>)
    requires |h| > 0
    ensures |r| == |h| - 1
  {
    PopOrder(h)[..|h| - 1]
  }

  ghost predicate Ordered(h: seq<Slot>) {
    forall k :: 0 < k < |h| ==> h[Parent(k)].at <= h[k].at
  }

  ghost predicate NoDup(h: seq<Slot>) {
    forall i, j :: 0 <= i < j < |h| ==> h[i].id != h[j].id
  }

  ghost function Ids(h: seq<Slot>): set<TaskID> {
    set s | s in h :: s.id
  }

  // ---------- contents ----------

  /** One holds the same slots as the other. */
  ghost predicate SameContents(h: seq<Slot>, g: seq<Slot>) {
    |h| == |g| && multiset(h) == multiset(g)
  }

  lemma SwapContents(h: seq<Slot>, i: nat, j: nat)
    requires i < |h| && j < |h|
    ensures SameContents(h, Swapped(h, i, j))
  {
  }

  lemma SwapMembers<T>(h: seq<T>, i: nat, j: nat)
    requires i < |h| && j < |h|
    ensures forall x :: x in Swapped(h, i, j) <==> x in h
  {
    var g := Swapped(h, i, j);
    forall x | x in h
      ensures x in g
    {
      var k :| 0 <= k < |h| && h[k] == x;
      assert g[if k == i then j else if k == j then i else k] == x;
    }
  }

  lemma {:induction false} SiftUpContents(h: seq<Slot>, j: nat)
    requires j < |h|
    ensures SameContents(h, SiftUp(h, j))
    decreases j
  {
    if j != 0 && h[j].at < h[Parent(j)].at {
      SwapContents(h, Parent(j), j);
      SiftUpContents(Swapped(h, Parent(j), j), Parent(j));
    }
  }

  lemma {:induction false} SiftDownContents(h: seq<Slot>, i: nat, n: nat)
    requires i <= n <= |h|
    ensures SameContents(h, SiftDown(h, i, n))
    ensures SiftDown(h, i, n)[n..] == h[n..]
    decreases n - i
  {
    if 2 * i + 1 < n {
      var c := SmallerChild(h, i, n);
      if h[c].at < h[i].at {
        SwapContents(h, i, c);
        SiftDownContents(Swapped(h, i, c), c, n);
        assert Swapped(h, i, c)[n..] == h[n..];
      }
    }
  }

  lemma SameMembers(h: seq<Slot>, g: seq<Slot>)
    requires SameContents(h, g)
    ensures forall s :: s in h <==> s in g
    ensures Ids(h) == Ids(g)
  {
    forall s
      ensures s in h <==> s in g
    {
      assert s in h <==> s in multiset(h);
      assert s in g <==> s in multiset(g);
    }
  }

  lemma CountTwo(h: seq<Slot>, i: nat, j: nat)
    requires i < j < |h| && h[i] == h[j]
    ensures multiset(h)[h[i]] >= 2
  {
    assert h == h[..j] + [h[j]] + h[j + 1..];
    assert h[i] in h[..j];
  }

  lemma CountOne(h: seq<Slot>, s: Slot)
    requires NoDup(h)
    ensures multiset(h)[s] <= 1
  {
    if s in h {
      var i :| 0 <= i < |h| && h[i] == s;
      assert h == h[..i] + [h[i]] + h[i + 1..];
      assert s !in h[..i] && s !in h[i + 1..];
    }
  }

  lemma NoDupKept(h: seq<Slot>, g: seq<Slot>)
    requires SameContents(h, g) && NoDup(h)
    ensures NoDup(g)
  {
    SameMembers(h, g);
    forall i, j | 0 <= i < j < |g|
      ensures g[i].id != g[j].id
    {
      if g[i].id == g[j].id {
        assert g[i] in h && g[j] in h;
        var a :| 0 <= a < |h| && h[a] == g[i];
        var b :| 0 <= b < |h| && h[b] == g[j];
        if a == b {
          CountTwo(g, i, j);
          CountOne(h, g[i]);
        }
      }
    }
  }

  /** Push adds the new slot and nothing else. */
  lemma PushContents(h: seq<Slot>, s: Slot)
    ensures multiset(Push(h, s)) == multiset(h) + multiset{s}
    ensures forall x :: x in Push(h, s) <==> x in h || x == s
    ensures Ids(Push(h, s)) == Ids(h) + {s.id}
    ensures NoDup(h) && s.id !in Ids(h) ==> NoDup(Push(h, s))
  {
    SiftUpContents(h + [s], |h|);
    SameMembers(h + [s], Push(h, s));
    forall x
      ensures x in h + [s] <==> x in h || x == s
    {
    }
    assert Ids(h + [s]) == Ids(h) + {s.id};
    if NoDup(h) && s.id !in Ids(h) {
      forall i, j | 0 <= i < j < |h + [s]|
        ensures (h + [s])[i].id != (h + [s])[j].id
      {
        if j == |h| {
          assert h[i] in h;
        }
      }
      NoDupKept(h + [s], Push(h, s));
    }
  }

  /** Pop gives back the root, whatever the order, and keeps every other slot. */
  lemma PopIsRoot(h: seq<Slot>)
    requires |h| > 0
    ensures SameContents(h, PopOrder(h))
    ensures PopOrder(h) == PopRest(h) + [h[0]]
  {
    hide SiftDown, Swapped;
    var n := |h| - 1;
    var g := Swapped(h, 0, n);
    var r := SiftDown(g, 0, n);
    SwapContents(h, 0, n);
    SiftDownContents(g, 0, n);
    LastSwapped(h);
    assert r == r[..n] + r[n..];
  }

  lemma LastSwapped(h: seq<Slot>)
    requires |h| > 0
    ensures Swapped(h, 0, |h| - 1)[|h| - 1..] == [h[0]]
  {
  }

  lemma PopMembers(h: seq<Slot>)
    requires |h| > 0 && NoDup(h)
    ensures NoDup(PopRest(h))
    ensures forall x :: x in PopRest(h) <==> x in h && x.id != h[0].id
  {
    var n := |h| - 1;
    var g := PopOrder(h);
    PopIsRoot(h);
    NoDupKept(h, g);
    SameMembers(h, g);
    assert g[n] == h[0];
    forall x
      ensures x in PopRest(h) <==> x in h && x.id != h[0].id
    {
      assert x in g <==> x in PopRest(h) || x == h[0];
      if x in PopRest(h) {
        var k :| 0 <= k < n && g[k] == x;
        assert g[k].id != g[n].id;
      }
    }
  }

  lemma PopIds(h: seq<Slot>)
    requires |h| > 0 && NoDup(h)
    ensures Ids(PopRest(h)) == Ids(h) - {h[0].id}
  {
    PopMembers(h);
    forall x
      ensures x in Ids(PopRest(h)) <==> x in Ids(h) - {h[0].id}
    {
      if x in Ids(h) && x != h[0].id {
        var s :| s in h && s.id == x;
        assert s in PopRest(h);
      }
    }
  }

  // ---------- order ----------

  /** Ordered except that place j may be less than its parent. */
  ghost predicate OrderedButUp(h: seq<Slot>, j: nat) {
    && (forall k :: 0 < k < |h| && k != j ==> h[Parent(k)].at <= h[k].at)
    && (forall k :: 0 < k < |h| && Parent(k) == j && j > 0 ==> h[Parent(j)].at <= h[k].at)
  }

  lemma {:induction false} RootBelow(h: seq<Slot>, j: nat, i: nat)
    requires OrderedButUp(h, j) && i < |h| && (i < j || j >= |h|)
    ensures h[0].at <= h[i].at
    decreases i
  {
    if i > 0 {
      RootBelow(h, j, Parent(i));
    }
  }

  lemma {:induction false} SiftUpOrders(h: seq<Slot>, j: nat)
    requires j < |h| && OrderedButUp(h, j)
    ensures Ordered(SiftUp(h, j))
    ensures SiftUp(h, j)[0] == if j == 0 || h[j].at < h[0].at then h[j] else h[0]
    decreases j
  {
    if j > 0 {
      var i := Parent(j);
      RootBelow(h, j, i);
      if h[j].at < h[i].at {
        var g := Swapped(h, i, j);
        forall k | 0 < k < |g| && k != i
          ensures g[Parent(k)].at <= g[k].at
        {
          if k == j {
          } else if Parent(k) == j {
            assert h[Parent(j)].at <= h[k].at;
          } else if Parent(k) == i {
            assert h[Parent(k)].at <= h[k].at;
          } else {
            assert h[Parent(k)].at <= h[k].at;
          }
        }
        forall k | 0 < k < |g| && Parent(k) == i && i > 0
          ensures g[Parent(i)].at <= g[k].at
        {
          assert h[Parent(i)].at <= h[i].at;
          if k != j {
            assert h[Parent(k)].at <= h[k].at;
          }
        }
        SiftUpOrders(g, i);
      }
    }
  }

  /** On an ordered heap Push keeps the order, and the new slot becomes the root exactly when it
      is strictly older than every slot already there. */
  lemma PushOrders(h: seq<Slot>, s: Slot)
    requires Ordered(h)
    ensures Ordered(Push(h, s))
    ensures h != [] ==> Push(h, s)[0] == if s.at < h[0].at then s else h[0]
    ensures h != [] ==> (s.at < h[0].at <==> forall x :: x in h ==> s.at < x.at)
  {
    var g := h + [s];
    forall k | 0 < k < |g| && k != |h|
      ensures g[Parent(k)].at <= g[k].at
    {
      assert h[Parent(k)].at <= h[k].at;
    }
    SiftUpOrders(g, |h|);
    if h != [] {
      forall x | x in h
        ensures h[0].at <= x.at
      {
        RootIsOldest(h, x);
      }
      assert h[0] in h;
    }
  }

  lemma RootIsOldest(h: seq<Slot>, x: Slot)
    requires Ordered(h) && x in h
    ensures h[0].at <= x.at
  {
    var i :| 0 <= i < |h| && h[i] == x;
    RootBelow(h, |h|, i);
  }

  /** Whatever the order, a slot not older than its first parent stays last. */
  lemma PushLateStaysLast(h: seq<Slot>, s: Slot)
    requires forall x :: x in h ==> x.at <= s.at
    ensures Push(h, s) == h + [s]
  {
    if |h| > 0 {
      assert h[Parent(|h|)] in h;
    }
  }

  /** The places above place k, up to the root. */
  function Ancestors(k: nat): (a: set<nat>)
    ensures forall x :: x in a ==> x < k
    ensures k > 0 ==> 0 in a
  {
    if k == 0 then {} else {Parent(k)} + Ancestors(Parent(k))
  }

  lemma {:induction false} SiftUpRoot(h: seq<Slot>, j: nat)
    requires j < |h| && forall k :: 0 <= k < |h| && k != j ==> h[k].id != h[j].id
    ensures SiftUp(h, j)[0].id == h[j].id <==> forall a :: a in Ancestors(j) ==> h[j].at < h[a].at
    decreases j
  {
    if j > 0 && h[j].at < h[Parent(j)].at {
      var g := Swapped(h, Parent(j), j);
      SiftUpRoot(g, Parent(j));
      assert forall a :: a in Ancestors(Parent(j)) ==> g[a] == h[a];
    } else if j > 0 {
      assert Parent(j) in Ancestors(j);
    }
  }

  /** On any heap, ordered or not, a pushed slot becomes the root exactly when everything on the chain
      from its place to the root is strictly newer. */
  lemma PushIsRootIff(h: seq<Slot>, s: Slot)
    requires s.id !in Ids(h)
    ensures Push(h, s)[0].id == s.id <==> forall a :: a in Ancestors(|h|) ==> s.at < h[a].at
  {
    var g := h + [s];
    forall k | 0 <= k < |h|
      ensures g[k].id != s.id
    {
      assert h[k] in h;
    }
    SiftUpRoot(g, |h|);
  }

  /** Ordered on the first n places except that place i may be greater than its children. */
  ghost predicate OrderedButDown(h: seq<Slot>, i: nat, n: nat)
    requires n <= |h|
  {
    && (forall k :: 0 < k < n && Parent(k) != i ==> h[Parent(k)].at <= h[k].at)
    && (forall k :: 0 < k < n && Parent(k) == i && i > 0 ==> h[Parent(i)].at <= h[k].at)
  }

  lemma ChildIs(k: nat, i: nat)
    requires k > 0
    ensures Parent(k) == i <==> k == 2 * i + 1 || k == 2 * i + 2
  {
  }

  lemma SwapDown(h: seq<Slot>, i: nat, n: nat)
    requires 2 * i + 1 < n <= |h| && OrderedButDown(h, i, n)
    requires h[SmallerChild(h, i, n)].at < h[i].at
    ensures OrderedButDown(Swapped(h, i, SmallerChild(h, i, n)), SmallerChild(h, i, n), n)
  {
    var c := SmallerChild(h, i, n);
    var g := Swapped(h, i, c);
    ChildIs(c, i);
    forall k | 0 < k < n && Parent(k) != c
      ensures g[Parent(k)].at <= g[k].at
    {
      ChildIs(k, i);
      if Parent(k) != i && k != i {
        assert h[Parent(k)].at <= h[k].at;
      }
    }
    forall k | 0 < k < n && Parent(k) == c
      ensures g[Parent(c)].at <= g[k].at
    {
      assert h[Parent(k)].at <= h[k].at;
    }
  }

  lemma SettledDown(h: seq<Slot>, i: nat, n: nat)
    requires i <= n <= |h| && OrderedButDown(h, i, n)
    requires 2 * i + 1 < n ==> h[i].at <= h[SmallerChild(h, i, n)].at
    ensures Ordered(h[..n])
  {
    forall k | 0 < k < n
      ensures h[Parent(k)].at <= h[k].at
    {
      ChildIs(k, i);
    }
  }

  lemma {:induction false} SiftDownOrders(h: seq<Slot>, i: nat, n: nat)
    requires i <= n <= |h| && OrderedButDown(h, i, n)
    ensures Ordered(SiftDown(h, i, n)[..n])
    decreases n - i
  {
    hide Ordered, OrderedButDown, SmallerChild, Swapped;
    if 2 * i + 1 < n && h[SmallerChild(h, i, n)].at < h[i].at {
      SwapDown(h, i, n);
      SiftDownOrders(Swapped(h, i, SmallerChild(h, i, n)), SmallerChild(h, i, n), n);
    } else {
      SettledDown(h, i, n);
    }
  }

  /** On an ordered heap Pop removes an oldest slot and leaves an ordered heap. */
  lemma PopOrders(h: seq<Slot>)
    requires |h| > 0 && Ordered(h)
    ensures Ordered(PopRest(h))
    ensures forall x :: x in h ==> h[0].at <= x.at
  {
    var n := |h| - 1;
    var g := Swapped(h, 0, n);
    forall k | 0 < k < n && Parent(k) != 0
      ensures g[Parent(k)].at <= g[k].at
    {
      assert h[Parent(k)].at <= h[k].at;
    }
    SiftDownOrders(g, 0, n);
    forall x | x in h
      ensures h[0].at <= x.at
    {
      RootIsOldest(h, x);
    }
  }
}
