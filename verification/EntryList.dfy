/**
 The doubly linked list of entries, with removal and restoration in place.
 `nodes` holds every node of a list in history order, the head at index 0;
 `alive` says which of them the links still connect.
 */
module EntryList {
  import opened Linearizability

  datatype Value<I, O> = Nothing | Input(input: I) | Output(output: O)

  /** `match` is the return of a call, and null in a return. */
  class Node<I, O> {
    const value: Value<I, O>
    const match_: Node?<I, O>
    const id: nat
    var next: Node?<I, O>
    var prev: Node?<I, O>

    constructor (value: Value<I, O>, match_: Node?<I, O>, id: nat)
      ensures this.value == value && this.match_ == match_ && this.id == id
      ensures next == null && prev == null
    {
      this.value, this.match_, this.id := value, match_, id;
      next, prev := null, null;
    }
  }

  // ----- neighbours in a set of indices

  /** The next index after `i` that is alive, or `n`. */
  ghost function Next(alive: set<nat>, i: nat, n: nat): (r: nat)
    requires i < n
    ensures i < r <= n
    ensures r < n ==> r in alive
    ensures forall x :: i < x < r ==> x !in alive
    decreases n - i
  {
    if i + 1 == n || i + 1 in alive then i + 1 else Next(alive, i + 1, n)
  }

  /** The last index before `i` that is alive, or -1. */
  ghost function Prev(alive: set<nat>, i: nat): (r: int)
    ensures -1 <= r < i
    ensures r >= 0 ==> r in alive
    ensures forall x :: r < x < i && 0 <= x ==> x !in alive
    decreases i
  {
    if i == 0 || i - 1 in alive then i - 1 else Prev(alive, i - 1)
  }

  ghost function At<I, O>(nodes: seq<Node<I, O>>, i: int): Node?<I, O> {
    if 0 <= i < |nodes| then nodes[i] else null
  }

  ghost predicate Distinct<I, O>(nodes: seq<Node<I, O>>) {
    forall i, j :: 0 <= i < j < |nodes| ==> nodes[i] != nodes[j]
  }

  /** Node `i` is linked to its neighbours among the nodes in `alive`. */
  ghost predicate LinkedAt<I, O>(nodes: seq<Node<I, O>>, alive: set<nat>, i: nat)
    requires i < |nodes|
    reads nodes
  {
    && nodes[i].next == At(nodes, Next(alive, i, |nodes|))
    && nodes[i].prev == At(nodes, Prev(alive, i))
  }

  ghost predicate Linked<I, O>(nodes: seq<Node<I, O>>, alive: set<nat>)
    reads nodes
  {
    && Distinct(nodes)
    && 0 in alive
    && (forall i :: i in alive ==> i < |nodes|)
    && (forall i {:trigger LinkedAt(nodes, alive, i)} :: i in alive ==> LinkedAt(nodes, alive, i))
  }

  /** The links of the nodes outside `touched` are what they were. */
  twostate predicate SameLinks<I, O>(nodes: seq<Node<I, O>>, touched: set<nat>)
    reads nodes
  {
    forall j :: 0 <= j < |nodes| && j !in touched ==>
      nodes[j].next == old(nodes[j].next) && nodes[j].prev == old(nodes[j].prev)
  }

  lemma NextIs(alive: set<nat>, i: nat, n: nat, r: nat)
    requires i < r <= n && (r < n ==> r in alive)
    requires forall x :: i < x < r ==> x !in alive
    ensures Next(alive, i, n) == r
  {
  }

  lemma PrevIs(alive: set<nat>, i: nat, r: int)
    requires -1 <= r < i && (r >= 0 ==> r in alive)
    requires forall x :: r < x < i && 0 <= x ==> x !in alive
    ensures Prev(alive, i) == r
  {
  }

  lemma NextWithout(alive: set<nat>, x: nat, i: nat, n: nat)
    requires i < n && x < n && x in alive && i != x
    ensures Next(alive - {x}, i, n) == if Next(alive, i, n) == x then Next(alive, x, n) else Next(alive, i, n)
  {
    NextIs(alive - {x}, i, n, if Next(alive, i, n) == x then Next(alive, x, n) else Next(alive, i, n));
  }

  lemma PrevWithout(alive: set<nat>, x: nat, i: nat)
    requires x in alive && i != x
    ensures Prev(alive - {x}, i) == if Prev(alive, i) == x then Prev(alive, x) else Prev(alive, i)
  {
    PrevIs(alive - {x}, i, if Prev(alive, i) == x then Prev(alive, x) else Prev(alive, i));
  }

  lemma NeighboursMirror(alive: set<nat>, i: nat, j: nat, n: nat)
    requires i in alive && j in alive && i < n && j < n
    ensures Next(alive, i, n) == j <==> Prev(alive, j) == i
  {
    if Next(alive, i, n) == j {
      PrevIs(alive, j, i);
    }
    if Prev(alive, j) == i {
      NextIs(alive, i, n, j);
    }
  }

  /** The neighbours of `j` once `i` is gone: those of `i` where `i` was one. */
  lemma NeighboursWithout(alive: set<nat>, i: nat, j: nat, n: nat)
    requires i in alive && j in alive && i < n && j < n && i != j
    ensures Next(alive - {i}, j, n) == if j == Prev(alive, i) then Next(alive, i, n) else Next(alive, j, n)
    ensures Prev(alive - {i}, j) == if j == Next(alive, i, n) then Prev(alive, i) else Prev(alive, j)
  {
    NextWithout(alive, i, j, n);
    PrevWithout(alive, i, j);
    NeighboursMirror(alive, j, i, n);
    NeighboursMirror(alive, i, j, n);
  }

  /** The neighbours of `j` once `i` is back: `i` where `j` is a neighbour of `i`. */
  lemma NeighboursWith(alive: set<nat>, i: nat, j: nat, n: nat)
    requires i in alive && j in alive && i < n && j < n && i != j
    ensures Next(alive, j, n) == if j == Prev(alive, i) then i else Next(alive - {i}, j, n)
    ensures Prev(alive, j) == if j == Next(alive, i, n) then i else Prev(alive - {i}, j)
  {
    NeighboursWithout(alive, i, j, n);
    NeighboursMirror(alive, j, i, n);
    NeighboursMirror(alive, i, j, n);
  }

  /** The two assignments that take a call out from between `a` and `b`: it is never the last node. */
  method BypassCall<I, O>(x: Node<I, O>, ghost nodes: seq<Node<I, O>>, ghost a: nat, ghost b: nat)
    requires Distinct(nodes) && a < |nodes| && b < |nodes| && x != nodes[a] && x != At(nodes, b)
    requires x.prev == nodes[a] && x.next == At(nodes, b)
    modifies nodes
    ensures forall j :: 0 <= j < |nodes| ==> nodes[j].next == if j == a then At(nodes, b) else old(nodes[j].next)
    ensures forall j :: 0 <= j < |nodes| ==> nodes[j].prev == if j == b then At(nodes, a) else old(nodes[j].prev)
  {
    x.prev.next := x.next;
    x.next.prev := x.prev;
  }

  /** The two assignments that take a return, which may be the last node, out from between `a` and `b`. */
  method BypassReturn<I, O>(x: Node<I, O>, ghost nodes: seq<Node<I, O>>, ghost a: nat, ghost b: nat)
    requires Distinct(nodes) && a < |nodes| && x != nodes[a] && x != At(nodes, b)
    requires x.prev == nodes[a] && x.next == At(nodes, b)
    modifies nodes
    ensures forall j :: 0 <= j < |nodes| ==> nodes[j].next == if j == a then At(nodes, b) else old(nodes[j].next)
    ensures forall j :: 0 <= j < |nodes| ==> nodes[j].prev == if j == b then At(nodes, a) else old(nodes[j].prev)
  {
    x.prev.next := x.next;
    if x.next != null {
      x.next.prev := x.prev;
    }
  }

  /** Taking a call out: its neighbours skip it, it keeps its own links. */
  method UnlinkCall<I, O>(x: Node<I, O>, ghost nodes: seq<Node<I, O>>, ghost alive: set<nat>, ghost i: nat)
    requires Linked(nodes, alive) && 0 < i < |nodes| && i in alive && nodes[i] == x
    requires Next(alive, i, |nodes|) < |nodes|
    modifies nodes
    ensures Linked(nodes, alive - {i})
    ensures LinkedAt(nodes, alive, i)
    ensures SameLinks(nodes, alive - {i})
  {
    hide Next, Prev;
    ghost var a, b := Prev(alive, i), Next(alive, i, |nodes|);
    assert LinkedAt(nodes, alive, i);
    assert 0 <= a && a in alive - {i} && (b < |nodes| ==> b in alive - {i});
    BypassCall(x, nodes, a, b);
    forall j {:trigger LinkedAt(nodes, alive - {i}, j)} | j in alive - {i}
      ensures LinkedAt(nodes, alive - {i}, j)
    {
      assert old(LinkedAt(nodes, alive, j));
      NeighboursWithout(alive, i, j, |nodes|);
    }
  }

  /** Taking a return out: its neighbours skip it, it keeps its own links. */
  method UnlinkReturn<I, O>(x: Node<I, O>, ghost nodes: seq<Node<I, O>>, ghost alive: set<nat>, ghost i: nat)
    requires Linked(nodes, alive) && 0 < i < |nodes| && i in alive && nodes[i] == x
    modifies nodes
    ensures Linked(nodes, alive - {i})
    ensures LinkedAt(nodes, alive, i)
    ensures SameLinks(nodes, alive - {i})
  {
    hide Next, Prev;
    ghost var a, b := Prev(alive, i), Next(alive, i, |nodes|);
    assert LinkedAt(nodes, alive, i);
    assert 0 <= a && a in alive - {i} && (b < |nodes| ==> b in alive - {i});
    BypassReturn(x, nodes, a, b);
    forall j {:trigger LinkedAt(nodes, alive - {i}, j)} | j in alive - {i}
      ensures LinkedAt(nodes, alive - {i}, j)
    {
      assert old(LinkedAt(nodes, alive, j));
      NeighboursWithout(alive, i, j, |nodes|);
    }
  }

  /** The two assignments that put a call back between `a` and `b`. */
  method RejoinCall<I, O>(x: Node<I, O>, ghost nodes: seq<Node<I, O>>, ghost a: nat, ghost b: nat)
    requires Distinct(nodes) && a < |nodes| && b < |nodes| && x != nodes[a] && x != At(nodes, b)
    requires x.prev == nodes[a] && x.next == At(nodes, b)
    modifies nodes
    ensures forall j :: 0 <= j < |nodes| ==> nodes[j].next == if j == a then x else old(nodes[j].next)
    ensures forall j :: 0 <= j < |nodes| ==> nodes[j].prev == if j == b then x else old(nodes[j].prev)
  {
    x.prev.next := x;
    x.next.prev := x;
  }

  /** The two assignments that put a return back between `a` and `b`. */
  method RejoinReturn<I, O>(x: Node<I, O>, ghost nodes: seq<Node<I, O>>, ghost a: nat, ghost b: nat)
    requires Distinct(nodes) && a < |nodes| && x != nodes[a] && x != At(nodes, b)
    requires x.prev == nodes[a] && x.next == At(nodes, b)
    modifies nodes
    ensures forall j :: 0 <= j < |nodes| ==> nodes[j].next == if j == a then x else old(nodes[j].next)
    ensures forall j :: 0 <= j < |nodes| ==> nodes[j].prev == if j == b then x else old(nodes[j].prev)
  {
    x.prev.next := x;
    if x.next != null {
      x.next.prev := x;
    }
  }

  /** Putting a call back where its own links say. */
  method RelinkCall<I, O>(x: Node<I, O>, ghost nodes: seq<Node<I, O>>, ghost alive: set<nat>, ghost i: nat)
    requires Linked(nodes, alive - {i}) && 0 < i < |nodes| && i in alive && nodes[i] == x
    requires LinkedAt(nodes, alive, i) && Next(alive, i, |nodes|) < |nodes|
    modifies nodes
    ensures Linked(nodes, alive)
    ensures SameLinks(nodes, alive - {i})
  {
    hide Next, Prev;
    ghost var a, b := Prev(alive, i), Next(alive, i, |nodes|);
    assert 0 <= a && a in alive - {i} && (b < |nodes| ==> b in alive - {i});
    RejoinCall(x, nodes, a, b);
    assert forall j :: j in alive ==> j == i || j in alive - {i};
    forall j {:trigger LinkedAt(nodes, alive, j)} | j in alive
      ensures LinkedAt(nodes, alive, j)
    {
      if j != i {
        assert j in alive - {i};
        assert old(LinkedAt(nodes, alive - {i}, j));
        NeighboursWith(alive, i, j, |nodes|);
      }
    }
  }

  /** Putting a return back where its own links say. */
  method RelinkReturn<I, O>(x: Node<I, O>, ghost nodes: seq<Node<I, O>>, ghost alive: set<nat>, ghost i: nat)
    requires Linked(nodes, alive - {i}) && 0 < i < |nodes| && i in alive && nodes[i] == x
    requires LinkedAt(nodes, alive, i)
    modifies nodes
    ensures Linked(nodes, alive)
    ensures SameLinks(nodes, alive - {i})
  {
    hide Next, Prev;
    ghost var a, b := Prev(alive, i), Next(alive, i, |nodes|);
    assert 0 <= a && a in alive - {i} && (b < |nodes| ==> b in alive - {i});
    RejoinReturn(x, nodes, a, b);
    assert forall j :: j in alive ==> j == i || j in alive - {i};
    forall j {:trigger LinkedAt(nodes, alive, j)} | j in alive
      ensures LinkedAt(nodes, alive, j)
    {
      if j != i {
        assert j in alive - {i};
        assert old(LinkedAt(nodes, alive - {i}, j));
        NeighboursWith(alive, i, j, |nodes|);
      }
    }
  }

  /** A call is followed at least by its own return. */
  lemma ReturnFollows(alive: set<nat>, c: nat, r: nat, n: nat)
    requires c < r < n && r in alive
    ensures Next(alive, c, n) <= r
  {
  }

  // ----- removing and restoring an operation

  method Lift<I, O>(entry: Node<I, O>, ghost nodes: seq<Node<I, O>>, ghost alive: set<nat>, ghost c: nat, ghost r: nat)
    requires Linked(nodes, alive) && 0 < c < r < |nodes| && c in alive && r in alive
    requires nodes[c] == entry && nodes[r] == entry.match_
    modifies nodes
    ensures Linked(nodes, alive - {c} - {r})
    ensures LinkedAt(nodes, alive, c) && LinkedAt(nodes, alive - {c}, r)
    ensures SameLinks(nodes, alive)
  {
    hide Linked, Next, Prev;
    ReturnFollows(alive, c, r, |nodes|);
    UnlinkCall(entry, nodes, alive, c);
    UnlinkReturn(entry.match_, nodes, alive - {c}, r);
  }

  /** Undoes `Lift`, in the reverse order: every link of the list is restored. */
  method Unlift<I, O>(entry: Node<I, O>, ghost nodes: seq<Node<I, O>>, ghost alive: set<nat>, ghost c: nat,
                      ghost r: nat)
    requires Linked(nodes, alive - {c} - {r}) && 0 < c < r < |nodes| && c in alive && r in alive
    requires nodes[c] == entry && nodes[r] == entry.match_
    requires LinkedAt(nodes, alive, c) && LinkedAt(nodes, alive - {c}, r)
    modifies nodes
    ensures Linked(nodes, alive)
    ensures SameLinks(nodes, alive)
  {
    hide Linked, Next, Prev;
    ReturnFollows(alive, c, r, |nodes|);
    RelinkReturn(entry.match_, nodes, alive - {c}, r);
    RelinkCall(entry, nodes, alive, c);
  }

  // ----- building the list

  /** A whole list, without a head. */
  ghost predicate Chain<I, O>(ns: seq<Node<I, O>>)
    reads ns
  {
    && Distinct(ns)
    && (forall k {:trigger ns[k].next} :: 0 <= k < |ns| ==> ns[k].next == At(ns, k + 1))
    && (forall k {:trigger ns[k].prev} :: 0 <= k < |ns| ==> ns[k].prev == At(ns, k - 1))
  }

  lemma EmptyChain<I, O>()
    ensures Chain<I, O>([])
  {
  }

  /** A node before node `k` of a list; before no node, it stays alone. */
  method InsertBefore<I, O>(n: Node<I, O>, mark: Node?<I, O>, ghost ns: seq<Node<I, O>>, ghost k: nat)
    requires Chain(ns) && k <= |ns| && mark == At(ns, k) && n !in ns && n.next == null && n.prev == null
    modifies n, ns
    ensures mark != null ==> Chain(ns[..k] + [n] + ns[k..])
    ensures mark == null ==> Chain(ns) && Chain([n])
  {
    if mark != null {
      var beforeMark := mark.prev;
      mark.prev := n;
      n.next := mark;
      if beforeMark != null {
        n.prev := beforeMark;
        beforeMark.next := n;
      }
      Inserted(n, ns, k);
    }
  }

  lemma Inserted<I, O>(n: Node<I, O>, ns: seq<Node<I, O>>, k: nat)
    requires Distinct(ns) && n !in ns && k < |ns|
    requires n.next == ns[k] && n.prev == At(ns, k - 1)
    requires forall j {:trigger ns[j].next} :: 0 <= j < |ns| ==> ns[j].next == if j == k - 1 then n else At(ns, j + 1)
    requires forall j {:trigger ns[j].prev} :: 0 <= j < |ns| ==> ns[j].prev == if j == k then n else At(ns, j - 1)
    ensures Chain(ns[..k] + [n] + ns[k..])
  {
    var all := ns[..k] + [n] + ns[k..];
    forall j | 0 <= j < |all|
      ensures all[j] == if j < k then ns[j] else if j == k then n else ns[j - 1]
    {
    }
  }

  /** The case the builders use: a new first node. */
  method InsertFirst<I, O>(n: Node<I, O>, root: Node?<I, O>, ghost ns: seq<Node<I, O>>)
    requires Chain(ns) && root == At(ns, 0) && n !in ns && n.next == null && n.prev == null
    modifies n, ns
    ensures Chain([n] + ns)
  {
    InsertBefore(n, root, ns, 0);
    assert ns[..0] + [n] + ns[0..] == [n] + ns;
  }

  method Length<I, O>(root: Node?<I, O>, ghost ns: seq<Node<I, O>>) returns (l: nat)
    requires Chain(ns) && root == At(ns, 0)
    ensures l == |ns|
  {
    l := 0;
    var n := root;
    while n != null
      invariant l <= |ns|
      invariant n == At(ns, l)
      decreases |ns| - l
    {
      n := n.next;
      l := l + 1;
    }
  }

  /** Node `k` of the list stands for entry `k` of the history. */
  ghost predicate StandsFor<I, O>(h: seq<Entry<I, O>>, ns: seq<Node<I, O>>, k: nat, offset: nat)
    requires k < |h| && k + offset < |ns|
  {
    var n := ns[k + offset];
    && n.id == h[k].id
    && (h[k].Call? ==> n.value == Input(h[k].input) && n.match_ == At(ns, ReturnPos(h, h[k].id) + offset))
    && (h[k].Return? ==> n.value == Output(h[k].output) && n.match_ == null)
  }

  ghost predicate Represents<I, O>(h: seq<Entry<I, O>>, ns: seq<Node<I, O>>, offset: nat) {
    |ns| == |h| + offset && forall k :: 0 <= k < |h| ==> StandsFor(h, ns, k, offset)
  }

  /** The same while only the entries from `i` on have nodes. */
  ghost predicate Built<I, O>(h: seq<Entry<I, O>>, ns: seq<Node<I, O>>, q: nat, i: nat)
    requires i <= q < |h| && |ns| == |h| - i
  {
    var n := ns[q - i];
    && n.id == h[q].id
    && (h[q].Call? ==> n.value == Input(h[q].input) && n.match_ == At(ns, ReturnPos(h, h[q].id) - i))
    && (h[q].Return? ==> n.value == Output(h[q].output) && n.match_ == null)
  }

  lemma ReturnComes<I, O>(h: seq<Entry<I, O>>, i: nat)
    requires WellFormed(h) && i < |h| && h[i].Call?
    ensures CallPos(h, h[i].id) == i < ReturnPos(h, h[i].id) < |h|
  {
    assert h[CallPos(h, h[i].id)].id == h[i].id;
  }

  lemma UniqueReturn<I, O>(h: seq<Entry<I, O>>, i: nat)
    requires WellFormed(h) && i < |h|
    ensures h[i].Return? ==> forall q :: 0 <= q < |h| && q != i && h[q].Return? ==> h[q].id != h[i].id
  {
  }

  lemma BuiltGrows<I, O>(h: seq<Entry<I, O>>, ns: seq<Node<I, O>>, entry: Node<I, O>, i: nat, j: nat)
    requires WellFormed(h) && i < |h| && j == i + 1 && |ns| == |h| - j
    requires forall q :: j <= q < |h| ==> Built(h, ns, q, j)
    requires entry.id == h[i].id
    requires h[i].Call? ==> entry.value == Input(h[i].input) && entry.match_ == At(ns, ReturnPos(h, h[i].id) - j)
    requires h[i].Return? ==> entry.value == Output(h[i].output) && entry.match_ == null
    ensures forall q :: i <= q < |h| ==> Built(h, [entry] + ns, q, i)
  {
    hide WellFormed, CallPos, ReturnPos;
    var ns' := [entry] + ns;
    forall q | i <= q < |h|
      ensures Built(h, ns', q, i)
    {
      if h[q].Call? {
        ReturnComes(h, q);
        assert ns'[ReturnPos(h, h[q].id) - i] == ns[ReturnPos(h, h[q].id) - j];
      }
      if q > i {
        assert Built(h, ns, q, j);
      }
    }
  }

  /** Every call is followed by its return, and the two are linked by `match`. */
  method MakeLinkedEntries<I, O>(entries: seq<Entry<I, O>>) returns (root: Node?<I, O>, ghost ns: seq<Node<I, O>>)
    requires WellFormed(entries)
    ensures Chain(ns) && root == At(ns, 0)
    ensures Represents(entries, ns, 0)
    ensures fresh(ns)
  {
    hide Chain, WellFormed, CallPos, ReturnPos, Built;
    root, ns := null, [];
    assert Chain(ns) by { EmptyChain<I, O>(); }
    var matches: map<nat, Node<I, O>> := map[];
    var i := |entries|;
    while i > 0
      invariant 0 <= i <= |entries| && |ns| == |entries| - i
      invariant Chain(ns) && root == At(ns, 0)
      invariant fresh(ns)
      invariant forall q :: i <= q < |entries| && entries[q].Return? ==>
        entries[q].id in matches && matches[entries[q].id] == ns[q - i]
      invariant forall q :: i <= q < |entries| ==> Built(entries, ns, q, i)
    {
      i := i - 1;
      var elem := entries[i];
      var entry: Node<I, O>;
      if elem.Return? {
        entry := new Node(Output(elem.output), null, elem.id);
      } else {
        entry := new Node(Input(elem.input), if elem.id in matches then matches[elem.id] else null, elem.id);
        ReturnComes(entries, i);
        assert entries[ReturnPos(entries, elem.id)].Return?;
      }
      BuiltGrows(entries, ns, entry, i, i + 1);
      UniqueReturn(entries, i);
      InsertFirst(entry, root, ns);
      if elem.Return? {
        matches := matches[elem.id := entry];
      }
      root, ns := entry, [entry] + ns;
    }
    AllBuilt(entries, ns);
  }

  lemma AllBuilt<I, O>(h: seq<Entry<I, O>>, ns: seq<Node<I, O>>)
    requires |ns| == |h| && forall q :: 0 <= q < |h| ==> Built(h, ns, q, 0)
    ensures Represents(h, ns, 0)
  {
    forall k | 0 <= k < |h|
      ensures StandsFor(h, ns, k, 0)
    {
      assert Built(h, ns, k, 0);
    }
  }
}
