/**
 `checkSingle`: the search of `Search`, run on the linked list of `EntryList`
 with the bitset of `Bitset`, an undo stack and a cache keyed by hash.
 */
module Checker {
  import opened Linearizability
  import opened Search
  import opened Countdown
  import opened EntryList
  import opened Bitset

  datatype CacheEntry<S> = CacheEntry(linearized: array<bv64>, state: S)

  datatype CallsEntry<S, I, O> = CallsEntry(entry: Node<I, O>, state: S)

  type Cache<S> = map<nat, seq<CacheEntry<S>>>

  // ----- the list

  /** The nodes the links connect: the head, and the entries of operations outside `done`. */
  ghost function Alive<I, O>(h: seq<Entry<I, O>>, done: set<nat>): set<nat> {
    set i: nat | 0 <= i <= |h| && IsAlive(h, done, i)
  }

  predicate IsAlive<I, O>(h: seq<Entry<I, O>>, done: set<nat>, i: nat) {
    i == 0 || Live(h, done, i - 1)
  }

  ghost predicate Frozen<S, I, O>(h: seq<Entry<I, O>>, nodes: seq<Node<I, O>>, frames: seq<Frame<S>>, k: nat)
    requires k < |frames|
    reads nodes
  {
    var alive := Alive(h, DoneIds(frames[..k]));
    var c, r := CallPos(h, frames[k].id) + 1, ReturnPos(h, frames[k].id) + 1;
    c < r < |nodes| && LinkedAt(nodes, alive, c) && LinkedAt(nodes, alive - {c}, r)
  }

  /**
   The list from the head is the history without the entries of the operations
   on the undo stack, and every removed entry still points to where it was.
   */
  ghost predicate ListOK<S, I, O>(h: seq<Entry<I, O>>, nodes: seq<Node<I, O>>, frames: seq<Frame<S>>)
    reads nodes
  {
    && |nodes| == |h| + 1
    && Linked(nodes, Alive(h, DoneIds(frames)))
    && (forall k :: 0 <= k < |frames| ==> Frozen(h, nodes, frames, k))
  }

  lemma AliveWithout<I, O>(h: seq<Entry<I, O>>, done: set<nat>, c: nat)
    requires WellFormed(h) && c in Ids(h) && c !in done
    ensures 0 < CallPos(h, c) + 1 < ReturnPos(h, c) + 1 < |h| + 1
    ensures CallPos(h, c) + 1 in Alive(h, done) && ReturnPos(h, c) + 1 in Alive(h, done)
    ensures Alive(h, done + {c}) == Alive(h, done) - {CallPos(h, c) + 1} - {ReturnPos(h, c) + 1}
  {
    hide WellFormed, CallPos, ReturnPos, Ids;
    KnownId(h, c);
    forall i: nat
      ensures i in Alive(h, done + {c}) <==> i in Alive(h, done) - {CallPos(h, c) + 1} - {ReturnPos(h, c) + 1}
    {
      if 0 < i <= |h| {
        OwnPosition(h, i - 1);
      }
    }
  }

  lemma RemovedIsDead<S, I, O>(h: seq<Entry<I, O>>, frames: seq<Frame<S>>, k: nat)
    requires k < |frames|
    ensures CallPos(h, frames[k].id) + 1 !in Alive(h, DoneIds(frames))
    ensures ReturnPos(h, frames[k].id) + 1 !in Alive(h, DoneIds(frames))
  {
    assert frames[k].id in DoneIds(frames);
  }

  method LiftStep<S, I, O>(entry: Node<I, O>, ghost h: seq<Entry<I, O>>, ghost nodes: seq<Node<I, O>>,
                           ghost frames: seq<Frame<S>>, ghost f: Frame<S>)
    requires WellFormed(h) && ListOK(h, nodes, frames) && f.id in Ids(h) && f.id !in DoneIds(frames)
    requires CallPos(h, f.id) < |h| && ReturnPos(h, f.id) < |h|
    requires entry == nodes[CallPos(h, f.id) + 1] && entry.match_ == nodes[ReturnPos(h, f.id) + 1]
    modifies nodes
    ensures ListOK(h, nodes, frames + [f])
  {
    hide WellFormed, Linked, Next, Prev, Alive, Ids, CallPos, ReturnPos;
    ghost var alive, c, r := Alive(h, DoneIds(frames)), CallPos(h, f.id) + 1, ReturnPos(h, f.id) + 1;
    AliveWithout(h, DoneIds(frames), f.id);
    DonePush(frames, f);
    Lift(entry, nodes, alive, c, r);
    forall k | 0 <= k < |frames + [f]|
      ensures Frozen(h, nodes, frames + [f], k)
    {
      if k < |frames| {
        assert old(Frozen(h, nodes, frames, k));
        RemovedIsDead(h, frames, k);
        assert (frames + [f])[..k] == frames[..k];
      }
    }
  }

  method UnliftStep<S, I, O>(entry: Node<I, O>, ghost h: seq<Entry<I, O>>, ghost nodes: seq<Node<I, O>>,
                             ghost frames: seq<Frame<S>>, ghost f: Frame<S>)
    requires WellFormed(h) && ListOK(h, nodes, frames + [f]) && f.id in Ids(h) && f.id !in DoneIds(frames)
    requires CallPos(h, f.id) < |h| && ReturnPos(h, f.id) < |h|
    requires entry == nodes[CallPos(h, f.id) + 1] && entry.match_ == nodes[ReturnPos(h, f.id) + 1]
    modifies nodes
    ensures ListOK(h, nodes, frames)
  {
    hide WellFormed, Linked, Next, Prev, Alive, Ids, CallPos, ReturnPos;
    ghost var alive, c, r := Alive(h, DoneIds(frames)), CallPos(h, f.id) + 1, ReturnPos(h, f.id) + 1;
    AliveWithout(h, DoneIds(frames), f.id);
    DonePush(frames, f);
    assert Frozen(h, nodes, frames + [f], |frames|);
    Unlift(entry, nodes, alive, c, r);
    forall k | 0 <= k < |frames|
      ensures Frozen(h, nodes, frames, k)
    {
      assert old(Frozen(h, nodes, frames + [f], k));
      RemovedIsDead(h, frames, k);
      assert (frames + [f])[..k] == frames[..k];
    }
  }

  // ----- the cache

  ghost function Arrays<S>(cache: Cache<S>): set<array<bv64>> {
    set hash, k | hash in cache && 0 <= k < |cache[hash]| :: cache[hash][k].linearized
  }

  /** Every cached pair sits in the bucket of its hash and is one of `seen`. */
  ghost predicate CacheRep<S>(cache: Cache<S>, size: nat, seen: seq<(set<nat>, S)>)
    reads Arrays(cache)
  {
    forall hash, k :: hash in cache && 0 <= k < |cache[hash]| ==> EntryRep(cache[hash][k], hash, size, seen)
  }

  ghost predicate EntryRep<S>(e: CacheEntry<S>, hash: nat, size: nat, seen: seq<(set<nat>, S)>)
    reads e.linearized
  {
    && e.linearized.Length == size
    && HashOf(e.linearized[..]) == hash
    && (Members(e.linearized[..]), e.state) in seen
  }

  /** The cache holds a pair with the same set and an equal state. */
  ghost predicate Contains<S, I, O>(m: Model<S, I, O>, cache: Cache<S>, entry: CacheEntry<S>)
    reads Arrays(cache), entry.linearized
  {
    exists hash, k :: hash in cache && 0 <= k < |cache[hash]| && SamePair(m, entry, cache[hash][k])
  }

  ghost predicate SamePair<S, I, O>(m: Model<S, I, O>, a: CacheEntry<S>, b: CacheEntry<S>)
    reads a.linearized, b.linearized
  {
    Members(a.linearized[..]) == Members(b.linearized[..]) && m.equal(a.state, b.state)
  }

  /** Looking in one bucket is looking everywhere. */
  method CacheContains<S, I, O>(m: Model<S, I, O>, cache: Cache<S>, entry: CacheEntry<S>,
                                ghost seen: seq<(set<nat>, S)>)
    returns (found: bool)
    requires CacheRep(cache, entry.linearized.Length, seen)
    ensures found <==> Contains(m, cache, entry)
  {
    hide HashOf, Members;
    var hash := Hash(entry.linearized);
    var bucket := if hash in cache then cache[hash] else [];
    var i := 0;
    while i < |bucket|
      invariant 0 <= i <= |bucket|
      invariant forall k :: 0 <= k < i ==> !SamePair(m, entry, bucket[k])
    {
      assert EntryRep(cache[hash][i], hash, entry.linearized.Length, seen);
      var same := Equals(entry.linearized, bucket[i].linearized);
      if same && m.equal(entry.state, bucket[i].state) {
        assert SamePair(m, entry, cache[hash][i]);
        return true;
      }
      i := i + 1;
    }
    if Contains(m, cache, entry) {
      var hash', k :| hash' in cache && 0 <= k < |cache[hash']| && SamePair(m, entry, cache[hash'][k]);
      assert EntryRep(cache[hash'][k], hash', entry.linearized.Length, seen);
      EqualSetsHashAlike(entry.linearized[..], cache[hash'][k].linearized[..]);
    }
    return false;
  }

  /** A cached pair with the same set and an equal state is among `seen`. */
  lemma ContainsIsSeen<S, I, O>(m: Model<S, I, O>, cache: Cache<S>, entry: CacheEntry<S>, size: nat,
                                seen: seq<(set<nat>, S)>)
    returns (k: nat)
    requires CacheRep(cache, size, seen) && Contains(m, cache, entry)
    ensures k < |seen| && seen[k].0 == Members(entry.linearized[..]) && m.equal(entry.state, seen[k].1)
  {
    hide HashOf, Members;
    var hash, j :| hash in cache && 0 <= j < |cache[hash]| && SamePair(m, entry, cache[hash][j]);
    var e := cache[hash][j];
    assert EntryRep(e, hash, size, seen);
    k :| 0 <= k < |seen| && seen[k] == (Members(e.linearized[..]), e.state);
  }

  function AddToCache<S>(cache: Cache<S>, hash: nat, entry: CacheEntry<S>): Cache<S> {
    cache[hash := (if hash in cache then cache[hash] else []) + [entry]]
  }

  lemma AddKeepsRep<S>(cache: Cache<S>, size: nat, seen: seq<(set<nat>, S)>, hash: nat, entry: CacheEntry<S>,
                       done: set<nat>)
    requires CacheRep(cache, size, seen) && entry.linearized.Length == size
    requires HashOf(entry.linearized[..]) == hash && Members(entry.linearized[..]) == done
    ensures CacheRep(AddToCache(cache, hash, entry), size, seen + [(done, entry.state)])
    ensures Arrays(AddToCache(cache, hash, entry)) == Arrays(cache) + {entry.linearized}
  {
    hide HashOf, Members;
    var cache', seen' := AddToCache(cache, hash, entry), seen + [(done, entry.state)];
    assert seen'[|seen|] == (done, entry.state);
    forall h, k | h in cache' && 0 <= k < |cache'[h]|
      ensures EntryRep(cache'[h][k], h, size, seen')
    {
      if h != hash || (h in cache && k < |cache[h]|) {
        assert cache'[h][k] == cache[h][k];
        assert EntryRep(cache[h][k], h, size, seen);
      }
    }
    AddedArrays(cache, hash, entry);
  }

  lemma AddedArrays<S>(cache: Cache<S>, hash: nat, entry: CacheEntry<S>)
    ensures Arrays(AddToCache(cache, hash, entry)) == Arrays(cache) + {entry.linearized}
  {
    var cache' := AddToCache(cache, hash, entry);
    var n := |cache'[hash]| - 1;
    assert cache'[hash][n] == entry;
    forall a | a in Arrays(cache)
      ensures a in Arrays(cache')
    {
      var h, k :| h in cache && 0 <= k < |cache[h]| && cache[h][k].linearized == a;
      assert cache'[h][k].linearized == a;
    }
    forall a | a in Arrays(cache')
      ensures a in Arrays(cache) || a == entry.linearized
    {
      var h, k :| h in cache' && 0 <= k < |cache'[h]| && cache'[h][k].linearized == a;
      assert h != hash || k < n ==> cache[h][k].linearized == a;
    }
  }

  // ----- the cursor

  ghost predicate CursorAt<S, I, O>(h: seq<Entry<I, O>>, nodes: seq<Node<I, O>>, frames: seq<Frame<S>>, p: nat,
                                    entry: Node?<I, O>) {
    p + 1 < |nodes| && Live(h, DoneIds(frames), p) && entry == nodes[p + 1]
  }

  /** The head points to the first entry that is left; when it points nowhere, nothing is left. */
  lemma FirstEntry<S, I, O>(h: seq<Entry<I, O>>, nodes: seq<Node<I, O>>, frames: seq<Frame<S>>) returns (q: nat)
    requires ListOK(h, nodes, frames)
    ensures nodes[0].next != null ==> CursorAt(h, nodes, frames, q, nodes[0].next)
    ensures nodes[0].next != null ==> forall x :: 0 <= x < q ==> !Live(h, DoneIds(frames), x)
    ensures nodes[0].next == null ==> Ids(h) <= DoneIds(frames)
  {
    hide Next, DoneIds;
    var done := DoneIds(frames);
    var alive := Alive(h, done);
    assert LinkedAt(nodes, alive, 0);
    var i := Next(alive, 0, |nodes|);
    q := i - 1;
    forall x | 0 <= x < q
      ensures !Live(h, done, x)
    {
      assert x + 1 !in alive;
    }
    if i == |nodes| {
      forall p | 0 <= p < |h|
        ensures h[p].id in done
      {
        assert p + 1 !in alive;
      }
    }
  }

  /** After a call that is left comes another entry that is left: the cursor never runs off the list. */
  lemma NextEntry<S, I, O>(h: seq<Entry<I, O>>, nodes: seq<Node<I, O>>, frames: seq<Frame<S>>, p: nat) returns (q: nat)
    requires WellFormed(h) && ListOK(h, nodes, frames) && Live(h, DoneIds(frames), p) && h[p].Call?
    ensures nodes[p + 1].next != null && p < q && CursorAt(h, nodes, frames, q, nodes[p + 1].next)
    ensures forall x :: p < x < q ==> !Live(h, DoneIds(frames), x)
  {
    hide Next, DoneIds, WellFormed;
    var done := DoneIds(frames);
    var alive := Alive(h, done);
    assert p + 1 in alive;
    assert LinkedAt(nodes, alive, p + 1);
    var i := Next(alive, p + 1, |nodes|);
    q := i - 1;
    ReturnComes(h, p);
    assert ReturnPos(h, h[p].id) + 1 in alive;
    forall x | p < x < q
      ensures !Live(h, done, x)
    {
      assert x + 1 !in alive;
    }
  }

  // ----- the undo stack

  ghost predicate CallsRep<S, I, O>(h: seq<Entry<I, O>>, nodes: seq<Node<I, O>>, calls: seq<CallsEntry<S, I, O>>,
                                    frames: seq<Frame<S>>) {
    && |calls| == |frames|
    && forall k :: 0 <= k < |calls| ==>
         CallPos(h, frames[k].id) + 1 < |nodes|
         && calls[k] == CallsEntry(nodes[CallPos(h, frames[k].id) + 1], frames[k].state)
  }

  /** Operation ids are small enough for the bitset. */
  ghost predicate Numbered<I, O>(h: seq<Entry<I, O>>) {
    forall p :: 0 <= p < |h| ==> h[p].id < |h| / 2
  }

  lemma MatchingNode<I, O>(h: seq<Entry<I, O>>, nodes: seq<Node<I, O>>, p: nat)
    requires WellFormed(h) && Represents(h, nodes, 1) && p < |h|
    ensures nodes[p + 1].id == h[p].id
    ensures nodes[p + 1].match_ != null <==> h[p].Call?
    ensures h[p].Call? ==> CallPos(h, h[p].id) == p < ReturnPos(h, h[p].id) < |h|
    ensures h[p].Call? ==> nodes[p + 1].match_ == nodes[ReturnPos(h, h[p].id) + 1]
    ensures h[p].Call? ==> nodes[p + 1].value == Input(h[p].input)
    ensures h[p].Call? ==> nodes[p + 1].match_.value == Output(h[ReturnPos(h, h[p].id)].output)
  {
    hide WellFormed;
    assert StandsFor(h, nodes, p, 1);
    if h[p].Call? {
      ReturnComes(h, p);
      assert StandsFor(h, nodes, ReturnPos(h, h[p].id), 1);
    }
  }

  /** The list with its head in front represents the history, and nothing is removed yet. */
  lemma WholeList<S, I, O>(h: seq<Entry<I, O>>, ns: seq<Node<I, O>>, head: Node<I, O>)
    requires Represents(h, ns, 0) && Chain([head] + ns)
    ensures Represents(h, [head] + ns, 1)
    ensures ListOK<S, I, O>(h, [head] + ns, [])
  {
    hide CallPos, ReturnPos;
    var nodes, none: seq<Frame<S>> := [head] + ns, [];
    forall k | 0 <= k < |h|
      ensures StandsFor(h, nodes, k, 1)
    {
      assert StandsFor(h, ns, k, 0);
      assert nodes[k + 1] == ns[k];
    }
    var alive := Alive(h, DoneIds(none));
    assert forall i: nat :: i in alive <==> i <= |h|;
    forall i {:trigger LinkedAt(nodes, alive, i)} | i in alive
      ensures LinkedAt(nodes, alive, i)
    {
      NextIs(alive, i, |nodes|, i + 1);
      PrevIs(alive, i, i - 1);
      assert nodes[i].next == At(nodes, i + 1) && nodes[i].prev == At(nodes, i - 1);
    }
  }

  // ----- the steps, between the concrete and the abstract search

  lemma Refused<S, I, O>(m: Model<S, I, O>, h: seq<Entry<I, O>>, done: set<nat>, s: S, c: nat)
    requires CallPos(h, c) < |h| && ReturnPos(h, c) < |h| && !Apply(m, h, s, c).0
    ensures !Succeeds(m, h, done, s, c)
  {
  }

  lemma Pruned<S(!new), I(!new), O(!new)>(m: Model<S, I, O>, h: seq<Entry<I, O>>, frames: seq<Frame<S>>, state: S,
                                          p: nat,
                                          seen: seq<(set<nat>, S)>, state': S, exact: bool,
                                          cache: Cache<S>, entry: CacheEntry<S>, size: nat)
    requires exact ==> Simulates(m)
    requires Inv(m, h, frames, state, p, seen, exact) && Live(h, DoneIds(frames), p)
    requires CallPos(h, h[p].id) < |h| && ReturnPos(h, h[p].id) < |h|
    requires Apply(m, h, state, h[p].id) == (true, state')
    requires CacheRep(cache, size, seen) && Contains(m, cache, entry)
    requires entry.state == state' && Members(entry.linearized[..]) == DoneIds(frames) + {h[p].id}
    ensures exact ==> !Succeeds(m, h, DoneIds(frames), state, h[p].id)
  {
    hide Inv, CacheRep, Contains, Completable, Members, Live, Simulates;
    var k := ContainsIsSeen(m, cache, entry, size, seen);
    if exact {
      assert h[p].id !in DoneIds(frames) by { LiveIsOpen(h, DoneIds(frames), p); }
      CacheHitFails(m, h, frames, state, p, seen, h[p].id, state', k);
    }
  }

  lemma LiveIsOpen<I, O>(h: seq<Entry<I, O>>, done: set<nat>, p: nat)
    requires Live(h, done, p)
    ensures p < |h| && h[p].id in Ids(h) && h[p].id !in done
  {
  }

  lemma InvFacts<S, I, O>(m: Model<S, I, O>, h: seq<Entry<I, O>>, frames: seq<Frame<S>>, state: S, p: nat,
                          seen: seq<(set<nat>, S)>, exact: bool)
    requires Inv(m, h, frames, state, p, seen, exact)
    ensures WellFormed(h) && PathOK(m, h, frames, state) && KnownFrames(h, frames)
  {
    PathIsKnown(m, h, frames, state);
  }

  /** The top of the stack is an operation the frames below have not linearized. */
  lemma TopIsOpen<S, I, O>(m: Model<S, I, O>, h: seq<Entry<I, O>>, frames: seq<Frame<S>>, state: S)
    requires PathOK(m, h, frames, state) && frames != []
    ensures var n := |frames| - 1; frames[n].id in Ids(h) && frames[n].id !in DoneIds(frames[..n])
    ensures var n := |frames| - 1; CallPos(h, frames[n].id) < |h| && ReturnPos(h, frames[n].id) < |h|
  {
    assert StepOK(m, h, frames, state, |frames| - 1);
  }

  lemma CallsPush<S, I, O>(h: seq<Entry<I, O>>, nodes: seq<Node<I, O>>, calls: seq<CallsEntry<S, I, O>>,
                           frames: seq<Frame<S>>, f: Frame<S>)
    requires CallsRep(h, nodes, calls, frames) && CallPos(h, f.id) + 1 < |nodes|
    ensures CallsRep(h, nodes, calls + [CallsEntry(nodes[CallPos(h, f.id) + 1], f.state)], frames + [f])
  {
    hide CallPos;
  }

  lemma CallsPop<S, I, O>(h: seq<Entry<I, O>>, nodes: seq<Node<I, O>>, calls: seq<CallsEntry<S, I, O>>,
                          frames: seq<Frame<S>>)
    requires CallsRep(h, nodes, calls, frames) && calls != []
    ensures |frames| == |calls|
    ensures CallsRep(h, nodes, calls[..|calls| - 1], frames[..|frames| - 1])
    ensures var f := frames[|frames| - 1];
            && CallPos(h, f.id) + 1 < |nodes|
            && calls[|calls| - 1] == CallsEntry(nodes[CallPos(h, f.id) + 1], f.state)
  {
    hide CallPos;
  }

  /** `linearized.set(entry.id)` and `lift(entry)`; the cache does not notice. */
  method Commit<S, I, O>(linearized: array<bv64>, entry: Node<I, O>, ghost h: seq<Entry<I, O>>,
                         ghost nodes: seq<Node<I, O>>, ghost frames: seq<Frame<S>>, ghost f: Frame<S>,
                         ghost cache: Cache<S>, ghost arrays: set<array<bv64>>, ghost seen: seq<(set<nat>, S)>)
    requires WellFormed(h) && ListOK(h, nodes, frames) && f.id in Ids(h) && f.id !in DoneIds(frames)
    requires CallPos(h, f.id) < |h| && ReturnPos(h, f.id) < |h|
    requires entry == nodes[CallPos(h, f.id) + 1] && entry.match_ == nodes[ReturnPos(h, f.id) + 1]
    requires entry.id == f.id < 64 * linearized.Length && Members(linearized[..]) == DoneIds(frames)
    requires CacheRep(cache, linearized.Length, seen) && Arrays(cache) == arrays && linearized !in arrays
    modifies nodes, linearized
    ensures ListOK(h, nodes, frames + [f])
    ensures Members(linearized[..]) == DoneIds(frames + [f])
    ensures CacheRep(cache, linearized.Length, seen)
  {
    hide WellFormed, ListOK, CallPos, ReturnPos, Ids, Members, DoneIds, CacheRep, Arrays;
    DonePush(frames, f);
    Set(linearized, entry.id);
    LiftStep(entry, h, nodes, frames, f);
  }

  /** `linearized.clear(entry.id)` and `unlift(entry)`. */
  method Rollback<S, I, O>(linearized: array<bv64>, entry: Node<I, O>, ghost h: seq<Entry<I, O>>,
                           ghost nodes: seq<Node<I, O>>, ghost frames: seq<Frame<S>>, ghost f: Frame<S>,
                           ghost cache: Cache<S>, ghost arrays: set<array<bv64>>, ghost seen: seq<(set<nat>, S)>)
    requires WellFormed(h) && ListOK(h, nodes, frames + [f]) && f.id in Ids(h) && f.id !in DoneIds(frames)
    requires CallPos(h, f.id) < |h| && ReturnPos(h, f.id) < |h|
    requires entry == nodes[CallPos(h, f.id) + 1] && entry.match_ == nodes[ReturnPos(h, f.id) + 1]
    requires entry.id == f.id < 64 * linearized.Length && Members(linearized[..]) == DoneIds(frames + [f])
    requires CacheRep(cache, linearized.Length, seen) && Arrays(cache) == arrays && linearized !in arrays
    modifies nodes, linearized
    ensures ListOK(h, nodes, frames)
    ensures Members(linearized[..]) == DoneIds(frames)
    ensures CacheRep(cache, linearized.Length, seen)
  {
    hide WellFormed, ListOK, CallPos, ReturnPos, Ids, Members, DoneIds, CacheRep, Arrays;
    DonePush(frames, f);
    Clear(linearized, entry.id);
    UnliftStep(entry, h, nodes, frames, f);
  }

  /** The local variables of the search loop. */
  datatype Vars<S, I, O> = Vars(
    cache: Cache<S>,
    calls: seq<CallsEntry<S, I, O>>,
    state: S,
    entry: Node?<I, O>)

  /** What the loop stands for: the stack, the cursor and the pairs seen, as values. */
  datatype Trace<S> = Trace(frames: seq<Frame<S>>, p: nat, seen: seq<(set<nat>, S)>, arrays: set<array<bv64>>)

  /** What does not change during the search. */
  ghost predicate Setting<I, O>(h: seq<Entry<I, O>>, nodes: seq<Node<I, O>>, bits: nat) {
    && WellFormed(h)
    && Represents(h, nodes, 1)
    && forall p :: 0 <= p < |h| ==> h[p].id < bits
  }

  /** The loop invariant. */
  ghost predicate Valid<S, I, O>(m: Model<S, I, O>, h: seq<Entry<I, O>>, nodes: seq<Node<I, O>>,
                                 linearized: array<bv64>,
                                 v: Vars<S, I, O>, g: Trace<S>, exact: bool)
    requires nodes != []
    reads nodes, linearized, Arrays(v.cache)
  {
    && Inv(m, h, g.frames, v.state, g.p, g.seen, exact)
    && ListOK(h, nodes, g.frames)
    && CallsRep(h, nodes, v.calls, g.frames)
    && Members(linearized[..]) == DoneIds(g.frames)
    && CacheRep(v.cache, linearized.Length, g.seen) && Arrays(v.cache) == g.arrays && linearized !in g.arrays
    && (if nodes[0].next != null then CursorAt(h, nodes, g.frames, g.p, v.entry) else g.p == |h|)
  }

  /** The call under the cursor is linearized: cache it, push it, lift it, start over from the head. */
  method Linearize<S(!new), I(!new), O(!new)>(
      m: Model<S, I, O>, head: Node<I, O>, linearized: array<bv64>, newEntry: CacheEntry<S>, v: Vars<S, I, O>,
      ghost h: seq<Entry<I, O>>, ghost nodes: seq<Node<I, O>>, ghost g: Trace<S>, ghost exact: bool)
    returns (v': Vars<S, I, O>, ghost g': Trace<S>)
    requires nodes != [] && head == nodes[0] && head.next != null
    requires Setting(h, nodes, 64 * linearized.Length) && Valid(m, h, nodes, linearized, v, g, exact)
    requires CursorAt(h, nodes, g.frames, g.p, v.entry) && v.entry != null && g.p < |h| && h[g.p].Call?
    requires CallPos(h, h[g.p].id) < |h| && ReturnPos(h, h[g.p].id) < |h|
    requires Apply(m, h, v.state, h[g.p].id) == (true, newEntry.state)
    requires newEntry.linearized.Length == linearized.Length && newEntry.linearized != linearized
    requires Members(newEntry.linearized[..]) == DoneIds(g.frames) + {h[g.p].id}
    modifies nodes, linearized
    ensures Valid(m, h, nodes, linearized, v', g', exact)
    ensures g'.arrays == g.arrays + {newEntry.linearized}
    ensures FuelLeft(h, g'.frames, g'.p) < FuelLeft(h, g.frames, g.p)
  {
    hide WellFormed, Represents, CallPos, ReturnPos, Ids, Members, HashOf, Inv, ListOK, CacheRep, CallsRep, DoneIds,
      Live, KnownFrames, Arrays, AddToCache, Fuel, FuelLeft;
    ghost var c, f := h[g.p].id, Frame(h[g.p].id, v.state);
    ghost var frames', seen' := g.frames + [f], g.seen + [(DoneIds(g.frames) + {c}, newEntry.state)];
    LiveIsOpen(h, DoneIds(g.frames), g.p);
    MatchingNode(h, nodes, g.p);
    var hash := Hash(newEntry.linearized);
    AddKeepsRep(v.cache, linearized.Length, g.seen, hash, newEntry, DoneIds(g.frames) + {c});
    var cache := AddToCache(v.cache, hash, newEntry);
    CallsPush(h, nodes, v.calls, g.frames, f);
    DonePush(g.frames, f);
    Commit(linearized, v.entry, h, nodes, g.frames, f, cache, g.arrays + {newEntry.linearized}, seen');
    ghost var q := FirstEntry(h, nodes, frames');
    if head.next == null {
      q := |h|;
      AllGone(h, frames');
    }
    Push(m, h, g.frames, v.state, g.p, q, g.seen, newEntry.state, exact);
    PushFuel(m, h, g.frames, v.state, f, newEntry.state, g.p, q, g.seen, seen', exact);
    v' := Vars(cache, v.calls + [CallsEntry(v.entry, v.state)], newEntry.state, head.next);
    g' := Trace(frames', q, seen', g.arrays + {newEntry.linearized});
  }

  /** The cursor is on a call: linearize it, or move on. */
  method TryCall<S(!new), I(!new), O(!new)>(
      m: Model<S, I, O>, head: Node<I, O>, linearized: array<bv64>, v: Vars<S, I, O>,
      ghost h: seq<Entry<I, O>>, ghost nodes: seq<Node<I, O>>, ghost g: Trace<S>, ghost exact: bool)
    returns (v': Vars<S, I, O>, ghost g': Trace<S>)
    requires nodes != [] && head == nodes[0] && head.next != null && (exact ==> Simulates(m))
    requires Setting(h, nodes, 64 * linearized.Length) && Valid(m, h, nodes, linearized, v, g, exact)
    requires v.entry != null && v.entry.match_ != null
    modifies nodes, linearized
    ensures Valid(m, h, nodes, linearized, v', g', exact)
    ensures FuelLeft(h, g'.frames, g'.p) < FuelLeft(h, g.frames, g.p)
  {
    hide WellFormed, Represents, CallPos, ReturnPos, Ids, Members, HashOf, Inv, ListOK, CacheRep, CallsRep, DoneIds,
      Live, Simulates, Contains, Succeeds, KnownFrames, Arrays, AddToCache, Fuel, FuelLeft;
    LiveIsOpen(h, DoneIds(g.frames), g.p);
    MatchingNode(h, nodes, g.p);
    ghost var arrays := g.arrays;
    var matching := v.entry.match_;
    var (accepted, newState) := m.step(v.state, v.entry.value.input, matching.value.output);
    assert Apply(m, h, v.state, h[g.p].id) == (accepted, newState);
    if accepted {
      var newLinearized := Clone(linearized);
      Set(newLinearized, v.entry.id);
      var newEntry := CacheEntry(newLinearized, newState);
      assert newLinearized !in arrays;
      var contained := CacheContains(m, v.cache, newEntry, g.seen);
      if !contained {
        v', g' := Linearize(m, head, linearized, newEntry, v, h, nodes, g, exact);
        return;
      }
      Pruned(m, h, g.frames, v.state, g.p, g.seen, newState, exact, v.cache, newEntry, linearized.Length);
    } else {
      Refused(m, h, DoneIds(g.frames), v.state, h[g.p].id);
    }
    ghost var q := NextEntry(h, nodes, g.frames, g.p);
    LiveIsOpen(h, DoneIds(g.frames), q);
    Advance(m, h, g.frames, v.state, g.p, q, g.seen, exact);
    AdvanceFuel(m, h, g.frames, v.state, g.p, q, g.seen, exact);
    v', g' := v.(entry := v.entry.next), g.(p := q);
  }

  /** The cursor is on a return: undo the last operation and move on after its call. */
  method Backtrack<S(!new), I(!new), O(!new)>(
      m: Model<S, I, O>, head: Node<I, O>, linearized: array<bv64>, v: Vars<S, I, O>,
      ghost h: seq<Entry<I, O>>, ghost nodes: seq<Node<I, O>>, ghost g: Trace<S>, ghost exact: bool)
    returns (v': Vars<S, I, O>, ghost g': Trace<S>)
    requires nodes != [] && head == nodes[0] && head.next != null
    requires Setting(h, nodes, 64 * linearized.Length) && Valid(m, h, nodes, linearized, v, g, exact)
    requires v.entry != null && v.entry.match_ == null && v.calls != []
    modifies nodes, linearized
    ensures Valid(m, h, nodes, linearized, v', g', exact)
    ensures FuelLeft(h, g'.frames, g'.p) < FuelLeft(h, g.frames, g.p)
  {
    hide WellFormed, Represents, CallPos, ReturnPos, Ids, Members, Inv, ListOK, CacheRep, CallsRep, DoneIds,
      Live, KnownFrames, Arrays, Fuel, FuelLeft, PathOK;
    LiveIsOpen(h, DoneIds(g.frames), g.p);
    MatchingNode(h, nodes, g.p);
    CallsPop(h, nodes, v.calls, g.frames);
    ghost var n := |g.frames| - 1;
    ghost var front, top := g.frames[..n], g.frames[n];
    assert g.frames == front + [top];
    InvFacts(m, h, g.frames, v.state, g.p, g.seen, exact);
    TopIsOpen(m, h, g.frames, v.state);
    MatchingCall(h, nodes, top.id);
    DonePush(front, top);
    var callsTop := v.calls[|v.calls| - 1];
    var entry := callsTop.entry;
    Rollback(linearized, entry, h, nodes, front, top, v.cache, g.arrays, g.seen);
    ghost var q := Reopened(h, nodes, front, top.id);
    Pop(m, h, g.frames, v.state, g.p, q, g.seen, DoneIds(front), exact);
    PopFuel(m, h, front, top, v.state, g.p, q, g.seen, exact);
    v' := Vars(v.cache, v.calls[..|v.calls| - 1], callsTop.state, entry.next);
    g' := g.(frames := front, p := q);
  }

  lemma MatchingCall<I, O>(h: seq<Entry<I, O>>, nodes: seq<Node<I, O>>, id: nat)
    requires WellFormed(h) && Represents(h, nodes, 1) && CallPos(h, id) < |h|
    ensures nodes[CallPos(h, id) + 1].id == id == h[CallPos(h, id)].id
    ensures ReturnPos(h, id) < |h|
    ensures nodes[CallPos(h, id) + 1].match_ == nodes[ReturnPos(h, id) + 1]
  {
    hide WellFormed, Represents;
    MatchingNode(h, nodes, CallPos(h, id));
  }

  /**
   `checkSingle` on the list that represents history `h`. A `true` is right for
   every model; when `Equal` can be trusted, `false` is right too. The search
   ends for every model.
   */
  method CheckSingle<S(!new), I(!new), O(!new)>(
      m: Model<S, I, O>, subhistory: Node?<I, O>, ghost h: seq<Entry<I, O>>, ghost ns: seq<Node<I, O>>)
    returns (ok: bool)
    requires WellFormed(h) && Numbered(h)
    requires Chain(ns) && Represents(h, ns, 0) && subhistory == At(ns, 0)
    modifies ns
    ensures ok ==> Linearizable(m, h)
    ensures Simulates(m) && Linearizable(m, h) ==> ok
  {
    hide WellFormed, Chain, Represents, Ids, Linearizable, Simulates, Members, Numbered, Setting, Valid, FuelLeft,
      Live, DoneIds;
    var length := Length(subhistory, ns);
    var n := length / 2;
    var linearized := New(n);
    var head := new Node<I, O>(Nothing, null, 0xFFFF_FFFF_FFFF_FFFF);
    InsertFirst(head, subhistory, ns);
    var v: Vars<S, I, O> := Vars(map[], [], m.init, subhistory);

    ghost var exact := Simulates(m);
    ghost var nodes := [head] + ns;
    ghost var g: Trace<S> := Trace([], 0, [], {});
    Started(m, h, ns, head, linearized, v, g, exact);
    while head.next != null
      invariant fresh(linearized)
      invariant Setting(h, nodes, 64 * linearized.Length)
      invariant Valid(m, h, nodes, linearized, v, g, exact)
      decreases FuelLeft(h, g.frames, g.p)
    {
      CursorIsThere(m, h, nodes, linearized, v, g, exact);
      if v.entry.match_ != null {
        v, g := TryCall(m, head, linearized, v, h, nodes, g, exact);
      } else {
        if |v.calls| == 0 {
          GivesUp(m, h, nodes, linearized, v, g, exact);
          return false;
        }
        v, g := Backtrack(m, head, linearized, v, h, nodes, g, exact);
      }
    }
    Finished(m, h, nodes, linearized, v, g, exact);
    return true;
  }

  lemma CursorIsThere<S, I, O>(m: Model<S, I, O>, h: seq<Entry<I, O>>, nodes: seq<Node<I, O>>, linearized: array<bv64>,
                               v: Vars<S, I, O>, g: Trace<S>, exact: bool)
    requires nodes != [] && Valid(m, h, nodes, linearized, v, g, exact) && nodes[0].next != null
    ensures v.entry != null
  {
  }

  lemma GivesUp<S(!new), I(!new), O(!new)>(
      m: Model<S, I, O>, h: seq<Entry<I, O>>, nodes: seq<Node<I, O>>, linearized: array<bv64>,
      v: Vars<S, I, O>, g: Trace<S>, exact: bool)
    requires nodes != [] && Setting(h, nodes, 64 * linearized.Length) && Valid(m, h, nodes, linearized, v, g, exact)
    requires nodes[0].next != null && v.entry != null && v.entry.match_ == null && |v.calls| == 0
    ensures exact ==> !Linearizable(m, h)
  {
    hide WellFormed, Represents, Members, Inv, ListOK, CacheRep, Arrays, Linearizable, DoneIds, Live;
    NoFrames(h, nodes, v.calls, g.frames);
    LiveIsOpen(h, DoneIds(g.frames), g.p);
    MatchingNode(h, nodes, g.p);
    if exact {
      Failure(m, h, v.state, g.p, g.seen);
    }
  }

  lemma Finished<S, I, O>(m: Model<S, I, O>, h: seq<Entry<I, O>>, nodes: seq<Node<I, O>>, linearized: array<bv64>,
                          v: Vars<S, I, O>, g: Trace<S>, exact: bool)
    requires nodes != [] && Valid(m, h, nodes, linearized, v, g, exact) && nodes[0].next == null
    ensures Linearizable(m, h)
  {
    hide Members, Inv, ListOK, CacheRep, Arrays, CallsRep, DoneIds, Linearizable, PathOK, Ids;
    InvFacts(m, h, g.frames, v.state, g.p, g.seen, exact);
    var q := FirstEntry(h, nodes, g.frames);
    Success(m, h, g.frames, v.state);
  }

  lemma NoFrames<S, I, O>(h: seq<Entry<I, O>>, nodes: seq<Node<I, O>>, calls: seq<CallsEntry<S, I, O>>,
                          frames: seq<Frame<S>>)
    requires CallsRep(h, nodes, calls, frames) && |calls| == 0
    ensures frames == [] && DoneIds(frames) == {}
  {
  }

  lemma AllGone<S, I, O>(h: seq<Entry<I, O>>, frames: seq<Frame<S>>)
    requires Ids(h) <= DoneIds(frames)
    ensures forall x: nat :: !Live(h, DoneIds(frames), x)
  {
    forall x: nat | Live(h, DoneIds(frames), x)
      ensures false
    {
      LiveIsOpen(h, DoneIds(frames), x);
    }
  }

  /** After an operation is restored, the entry after its call is left, and so is something after the head. */
  lemma Reopened<S, I, O>(h: seq<Entry<I, O>>, nodes: seq<Node<I, O>>, front: seq<Frame<S>>, id: nat) returns (q: nat)
    requires WellFormed(h) && ListOK(h, nodes, front) && id in Ids(h) && id !in DoneIds(front) && CallPos(h, id) < |h|
    ensures nodes[0].next != null
    ensures CallPos(h, id) < q && CursorAt(h, nodes, front, q, nodes[CallPos(h, id) + 1].next)
    ensures forall x :: CallPos(h, id) < x < q ==> !Live(h, DoneIds(front), x)
    ensures q < |h|
  {
    hide WellFormed, Linked, Next, Prev, Frozen;
    q := NextEntry(h, nodes, front, CallPos(h, id));
    var first := FirstEntry(h, nodes, front);
  }

  lemma PopFuel<S, I, O>(m: Model<S, I, O>, h: seq<Entry<I, O>>, front: seq<Frame<S>>, top: Frame<S>, state: S,
                         p: nat, q: nat, seen: seq<(set<nat>, S)>, exact: bool)
    requires Inv(m, h, front + [top], state, p, seen, exact) && Inv(m, h, front, top.state, q, seen, exact)
    requires p < |h| && CallPos(h, top.id) < q < |h|
    ensures FuelLeft(h, front, q) < FuelLeft(h, front + [top], p)
  {
    hide Inv, Fuel, KnownFrames, CallPos;
    InvFacts(m, h, front + [top], state, p, seen, exact);
    InvFacts(m, h, front, top.state, q, seen, exact);
    PopBurns(h, front, top, p, q);
  }

  lemma AdvanceFuel<S, I, O>(m: Model<S, I, O>, h: seq<Entry<I, O>>, frames: seq<Frame<S>>, state: S, p: nat, q: nat,
                             seen: seq<(set<nat>, S)>, exact: bool)
    requires Inv(m, h, frames, state, p, seen, exact) && p < q < |h|
    ensures FuelLeft(h, frames, q) < FuelLeft(h, frames, p)
  {
    hide Inv, Fuel, KnownFrames;
    InvFacts(m, h, frames, state, p, seen, exact);
    AdvanceBurns(h, frames, p, q);
  }

  lemma PushFuel<S, I, O>(m: Model<S, I, O>, h: seq<Entry<I, O>>, frames: seq<Frame<S>>, state: S, f: Frame<S>,
                          state': S,
                          p: nat, q: nat, seen: seq<(set<nat>, S)>, seen': seq<(set<nat>, S)>, exact: bool)
    requires Inv(m, h, frames, state, p, seen, exact) && p < |h| && CallPos(h, f.id) == p
    requires Inv(m, h, frames + [f], state', q, seen', exact)
    ensures FuelLeft(h, frames + [f], q) < FuelLeft(h, frames, p)
  {
    hide Inv, Fuel, KnownFrames, CallPos;
    InvFacts(m, h, frames, state, p, seen, exact);
    InvFacts(m, h, frames + [f], state', q, seen', exact);
    FuelPositive(h, frames, p);
    if q < |h| {
      PushBurns(h, frames, f, q);
    }
  }

  /** The measure, zero once nothing is left. */
  ghost function FuelLeft<S, I, O>(h: seq<Entry<I, O>>, frames: seq<Frame<S>>, p: nat): nat {
    if KnownFrames(h, frames) && p < |h| then Fuel(h, frames, p) else 0
  }

  lemma Started<S, I, O>(m: Model<S, I, O>, h: seq<Entry<I, O>>, ns: seq<Node<I, O>>, head: Node<I, O>,
                         linearized: array<bv64>, v: Vars<S, I, O>, g: Trace<S>, exact: bool)
    requires WellFormed(h) && Numbered(h) && Represents(h, ns, 0) && Chain([head] + ns)
    requires |ns| / 2 <= 64 * linearized.Length && Members(linearized[..]) == {}
    requires v == Vars(map[], [], m.init, At(ns, 0)) && g == Trace([], 0, [], {})
    ensures Setting(h, [head] + ns, 64 * linearized.Length)
    ensures Valid(m, h, [head] + ns, linearized, v, g, exact)
  {
    hide WellFormed, Represents, ListOK, Inv, Members, CacheRep, CallsRep, Arrays;
    WholeList<S, I, O>(h, ns, head);
    Begin(m, h, exact);
    EmptyCache<S, I, O>(h, [head] + ns, linearized.Length);
    SameLength(h, ns);
    assert ([head] + ns)[0].next == At([head] + ns, 1) == At(ns, 0);
  }

  lemma SameLength<I, O>(h: seq<Entry<I, O>>, ns: seq<Node<I, O>>)
    requires Represents(h, ns, 0)
    ensures |ns| == |h|
  {
  }

  lemma EmptyCache<S, I, O>(h: seq<Entry<I, O>>, nodes: seq<Node<I, O>>, size: nat)
    ensures CacheRep<S>(map[], size, []) && Arrays<S>(map[]) == {}
    ensures CallsRep<S, I, O>(h, nodes, [], [])
    ensures DoneIds<S>([]) == {}
  {
  }
}
