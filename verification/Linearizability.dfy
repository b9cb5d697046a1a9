/**
 What it means for a history of calls and returns to be linearizable, and how
 that unfolds one operation at a time.
 */
module Linearizability {

  /** The three functions of a `Model` that the search uses. */
  datatype Model<!S, !I, !O> = Model(
    init: S,
    step: (S, I, O) -> (bool, S),
    equal: (S, S) -> bool)

  datatype Entry<I, O> = Call(id: nat, input: I) | Return(id: nat, output: O)

  // ----- positions

  function CallPos<I, O>(h: seq<Entry<I, O>>, id: nat): (p: nat)
    ensures p <= |h|
    ensures p < |h| ==> h[p].Call? && h[p].id == id
    ensures forall q :: 0 <= q < p ==> !(h[q].Call? && h[q].id == id)
  {
    if h == [] then 0
    else if h[0].Call? && h[0].id == id then 0
    else CallPos(h[1..], id) + 1
  }

  function ReturnPos<I, O>(h: seq<Entry<I, O>>, id: nat): (p: nat)
    ensures p <= |h|
    ensures p < |h| ==> h[p].Return? && h[p].id == id
    ensures forall q :: 0 <= q < p ==> !(h[q].Return? && h[q].id == id)
  {
    if h == [] then 0
    else if h[0].Return? && h[0].id == id then 0
    else ReturnPos(h[1..], id) + 1
  }

  /** A complete history: every operation has one call and, later, one return. */
  ghost predicate WellFormed<I, O>(h: seq<Entry<I, O>>) {
    && (forall p :: 0 <= p < |h| ==> CallPos(h, h[p].id) < ReturnPos(h, h[p].id) < |h|)
    && (forall p, q :: 0 <= p < q < |h| && h[p].id == h[q].id ==> h[p].Call? != h[q].Call?)
  }

  function Ids<I, O>(h: seq<Entry<I, O>>): set<nat> {
    set p | 0 <= p < |h| :: h[p].id
  }

  // ----- the specification

  /** Operation `a` returned before operation `b` was called. */
  predicate Precedes<I, O>(h: seq<Entry<I, O>>, a: nat, b: nat) {
    ReturnPos(h, a) < CallPos(h, b)
  }

  ghost predicate Respects<I, O>(h: seq<Entry<I, O>>, order: seq<nat>) {
    forall i, j :: 0 <= i < j < |order| ==> !Precedes(h, order[j], order[i])
  }

  ghost predicate NoRepeats(order: seq<nat>) {
    forall i, j :: 0 <= i < j < |order| ==> order[i] != order[j]
  }

  /** `order` lists the operations outside `done`, each once, without reversing any precedence. */
  ghost predicate IsOrder<I, O>(h: seq<Entry<I, O>>, done: set<nat>, order: seq<nat>) {
    && NoRepeats(order)
    && (forall x :: x in order <==> x in Ids(h) && x !in done)
    && Respects(h, order)
  }

  function Apply<S, I, O>(m: Model<S, I, O>, h: seq<Entry<I, O>>, s: S, id: nat): (bool, S)
    requires CallPos(h, id) < |h| && ReturnPos(h, id) < |h|
  {
    m.step(s, h[CallPos(h, id)].input, h[ReturnPos(h, id)].output)
  }

  ghost predicate Accepted<S, I, O>(m: Model<S, I, O>, h: seq<Entry<I, O>>, s: S, order: seq<nat>) {
    order != [] ==>
      && CallPos(h, order[0]) < |h| && ReturnPos(h, order[0]) < |h|
      && Apply(m, h, s, order[0]).0
      && Accepted(m, h, Apply(m, h, s, order[0]).1, order[1..])
  }

  /** Some order of the operations outside `done` is accepted step by step from `s`. */
  ghost predicate Completable<S, I, O>(m: Model<S, I, O>, h: seq<Entry<I, O>>, done: set<nat>, s: S) {
    exists order :: IsOrder(h, done, order) && Accepted(m, h, s, order)
  }

  ghost predicate Linearizable<S, I, O>(m: Model<S, I, O>, h: seq<Entry<I, O>>) {
    Completable(m, h, {}, m.init)
  }

  // ----- one operation at a time

  /** An operation that may come first: nothing else outside `done` returned before its call. */
  ghost predicate MayBeNext<I, O>(h: seq<Entry<I, O>>, done: set<nat>, c: nat) {
    && c in Ids(h) && c !in done
    && forall b :: b in Ids(h) && b !in done ==> !Precedes(h, b, c)
  }

  /** Starting with `c` leads to an accepted order. */
  ghost predicate Succeeds<S, I, O>(m: Model<S, I, O>, h: seq<Entry<I, O>>, done: set<nat>, s: S, c: nat) {
    && CallPos(h, c) < |h| && ReturnPos(h, c) < |h|
    && Apply(m, h, s, c).0
    && Completable(m, h, done + {c}, Apply(m, h, s, c).1)
  }

  lemma KnownId<I, O>(h: seq<Entry<I, O>>, id: nat)
    requires WellFormed(h) && id in Ids(h)
    ensures CallPos(h, id) < ReturnPos(h, id) < |h|
  {
    var p :| 0 <= p < |h| && h[p].id == id;
  }

  /** An entry is the call or the return of its operation. */
  lemma OwnPosition<I, O>(h: seq<Entry<I, O>>, p: nat)
    requires WellFormed(h) && p < |h|
    ensures p == CallPos(h, h[p].id) || p == ReturnPos(h, h[p].id)
  {
    assert h[CallPos(h, h[p].id)].id == h[p].id == h[ReturnPos(h, h[p].id)].id;
  }

  lemma HeadMayBeNext<I, O>(h: seq<Entry<I, O>>, done: set<nat>, order: seq<nat>)
    requires WellFormed(h) && IsOrder(h, done, order) && order != []
    ensures MayBeNext(h, done, order[0])
  {
    var c := order[0];
    assert c in order;
    forall b | b in Ids(h) && b !in done
      ensures !Precedes(h, b, c)
    {
      assert b in order;
      if b == c {
        KnownId(h, c);
      }
    }
  }

  lemma TailIsOrder<I, O>(h: seq<Entry<I, O>>, done: set<nat>, order: seq<nat>)
    requires IsOrder(h, done, order) && order != []
    ensures IsOrder(h, done + {order[0]}, order[1..])
  {
    var c, rest := order[0], order[1..];
    forall y
      ensures y in rest <==> y in Ids(h) && y !in done + {c}
    {
      assert y in order <==> y == c || y in rest;
    }
  }

  lemma FirstIsNext<S, I, O>(m: Model<S, I, O>, h: seq<Entry<I, O>>, done: set<nat>, s: S)
    returns (c: nat)
    requires WellFormed(h) && Completable(m, h, done, s) && !(Ids(h) <= done)
    ensures MayBeNext(h, done, c) && Succeeds(m, h, done, s, c)
  {
    hide MayBeNext, WellFormed;
    var order :| IsOrder(h, done, order) && Accepted(m, h, s, order);
    assert order != [] by {
      var x :| x in Ids(h) && x !in done;
      assert x in order;
    }
    c := order[0];
    HeadMayBeNext(h, done, order);
    TailIsOrder(h, done, order);
  }

  lemma NextThenRest<S, I, O>(m: Model<S, I, O>, h: seq<Entry<I, O>>, done: set<nat>, s: S, c: nat)
    requires MayBeNext(h, done, c) && Succeeds(m, h, done, s, c)
    ensures Completable(m, h, done, s)
  {
    var rest :| IsOrder(h, done + {c}, rest) && Accepted(m, h, Apply(m, h, s, c).1, rest);
    var order := [c] + rest;
    assert order[1..] == rest;
    forall i, j | 0 <= i < j < |order|
      ensures order[i] != order[j] && !Precedes(h, order[j], order[i])
    {
      assert order[j] == rest[j - 1] && rest[j - 1] in rest;
      if i > 0 {
        assert order[i] == rest[i - 1];
      }
    }
    forall x
      ensures x in order <==> x in Ids(h) && x !in done
    {
      assert x in order <==> x == c || x in rest;
    }
    assert IsOrder(h, done, order);
  }

  lemma NothingLeft<S, I, O>(m: Model<S, I, O>, h: seq<Entry<I, O>>, done: set<nat>, s: S)
    requires Ids(h) <= done
    ensures Completable(m, h, done, s)
  {
    assert IsOrder(h, done, []);
    assert Accepted(m, h, s, []);
  }

  // ----- equality of states

  /** What the search needs of `Equal`: a state equal to another can do no more than it. */
  ghost predicate Simulates<S(!new), I(!new), O(!new)>(m: Model<S, I, O>) {
    forall a: S, b: S, i: I, o: O :: m.equal(a, b) && m.step(a, i, o).0 ==>
      m.step(b, i, o).0 && m.equal(m.step(a, i, o).1, m.step(b, i, o).1)
  }

  lemma {:induction false} EqualAccepts<S(!new), I(!new), O(!new)>(
      m: Model<S, I, O>, h: seq<Entry<I, O>>, a: S, b: S, order: seq<nat>)
    requires Simulates(m) && m.equal(a, b) && Accepted(m, h, a, order)
    ensures Accepted(m, h, b, order)
    decreases |order|
  {
    if order != [] {
      EqualAccepts(m, h, Apply(m, h, a, order[0]).1, Apply(m, h, b, order[0]).1, order[1..]);
    }
  }

  lemma EqualCompletable<S(!new), I(!new), O(!new)>(
      m: Model<S, I, O>, h: seq<Entry<I, O>>, done: set<nat>, a: S, b: S)
    requires Simulates(m) && m.equal(a, b) && Completable(m, h, done, a)
    ensures Completable(m, h, done, b)
  {
    var order :| IsOrder(h, done, order) && Accepted(m, h, a, order);
    EqualAccepts(m, h, a, b, order);
  }
}
