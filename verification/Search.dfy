/**
 The backtracking search of `checkSingle` on values: the undo stack, the
 cursor and the cache, what every step of the search keeps, and why it ends.
 */
module Search {
  import opened Linearizability

  /** An entry of the undo stack: the operation linearized, and the state before it. */
  datatype Frame<S> = Frame(id: nat, state: S)

  function DoneIds<S>(frames: seq<Frame<S>>): set<nat> {
    set k | 0 <= k < |frames| :: frames[k].id
  }

  ghost function StateAt<S>(frames: seq<Frame<S>>, state: S, k: nat): S {
    if k < |frames| then frames[k].state else state
  }

  /** Position `p` of the history belongs to an operation that is not linearized. */
  predicate Live<I, O>(h: seq<Entry<I, O>>, done: set<nat>, p: nat) {
    p < |h| && h[p].id !in done
  }

  /** No operation called before position `p` can come next with success. */
  ghost predicate NoneBefore<S, I, O>(m: Model<S, I, O>, h: seq<Entry<I, O>>, done: set<nat>, s: S, p: nat) {
    forall c :: MayBeNext(h, done, c) && CallPos(h, c) < p ==> !Succeeds(m, h, done, s, c)
  }

  /** Only calls remain before position `p`. */
  ghost predicate OnlyCallsBefore<I, O>(h: seq<Entry<I, O>>, done: set<nat>, p: nat) {
    forall q :: 0 <= q < p && Live(h, done, q) ==> h[q].Call?
  }

  /** The undo stack is a path of accepted steps, each with an operation that was next in line. */
  ghost predicate PathOK<S, I, O>(m: Model<S, I, O>, h: seq<Entry<I, O>>, frames: seq<Frame<S>>, state: S) {
    && StateAt(frames, state, 0) == m.init
    && forall k :: 0 <= k < |frames| ==> StepOK(m, h, frames, state, k)
  }

  ghost predicate StepOK<S, I, O>(m: Model<S, I, O>, h: seq<Entry<I, O>>, frames: seq<Frame<S>>, state: S, k: nat)
    requires k < |frames|
  {
    var id := frames[k].id;
    && MayBeNext(h, DoneIds(frames[..k]), id)
    && CallPos(h, id) < |h| && ReturnPos(h, id) < |h|
    && Apply(m, h, frames[k].state, id) == (true, StateAt(frames, state, k + 1))
  }

  /** Everything before the choices on the stack, and before the cursor, has failed. */
  ghost predicate Explored<S, I, O>(m: Model<S, I, O>, h: seq<Entry<I, O>>, frames: seq<Frame<S>>, state: S, p: nat) {
    && (forall k :: 0 <= k < |frames| ==>
          NoneBefore(m, h, DoneIds(frames[..k]), frames[k].state, CallPos(h, frames[k].id)))
    && NoneBefore(m, h, DoneIds(frames), state, p)
  }

  ghost predicate OnPath<S>(frames: seq<Frame<S>>, state: S, entry: (set<nat>, S)) {
    exists k :: 1 <= k <= |frames| && entry == (DoneIds(frames[..k]), StateAt(frames, state, k))
  }

  /** A cached pair is on the current path or is known to lead nowhere. */
  ghost predicate CacheOK<S, I, O>(m: Model<S, I, O>, h: seq<Entry<I, O>>, frames: seq<Frame<S>>, state: S,
                                   seen: seq<(set<nat>, S)>) {
    forall k :: 0 <= k < |seen| ==>
      OnPath(frames, state, seen[k]) || !Completable(m, h, seen[k].0, seen[k].1)
  }

  /**
   The invariant of the search. What was tried and failed is only claimed for
   models whose `Equal` can be trusted (`exact`); the rest holds for all.
   */
  ghost predicate Inv<S, I, O>(m: Model<S, I, O>, h: seq<Entry<I, O>>, frames: seq<Frame<S>>, state: S, p: nat,
                               seen: seq<(set<nat>, S)>, exact: bool) {
    && WellFormed(h)
    && PathOK(m, h, frames, state)
    && OnlyCallsBefore(h, DoneIds(frames), p)
    && (exact ==> Explored(m, h, frames, state, p) && CacheOK(m, h, frames, state, seen))
  }

  // ----- small facts

  lemma DonePush<S>(frames: seq<Frame<S>>, f: Frame<S>)
    ensures DoneIds(frames + [f]) == DoneIds(frames) + {f.id}
    ensures (frames + [f])[..|frames|] == frames
    ensures forall k :: 0 <= k <= |frames| ==> (frames + [f])[..k] == frames[..k]
  {
    var all := frames + [f];
    forall x
      ensures x in DoneIds(all) <==> x in DoneIds(frames) || x == f.id
    {
      if x in DoneIds(frames) {
        var k :| 0 <= k < |frames| && frames[k].id == x;
        assert all[k].id == x;
      }
      if x == f.id {
        assert all[|frames|].id == x;
      }
    }
  }

  lemma {:induction false} DoneSize<S, I, O>(m: Model<S, I, O>, h: seq<Entry<I, O>>, frames: seq<Frame<S>>, state: S,
                                             k: nat)
    requires PathOK(m, h, frames, state) && k <= |frames|
    ensures |DoneIds(frames[..k])| == k
  {
    hide DoneIds, StepOK;
    if k == 0 {
      assert frames[..0] == [];
      NothingDone<S>();
    } else {
      DoneSize(m, h, frames, state, k - 1);
      StepIsNew(m, h, frames, state, k - 1);
      assert frames[..k] == frames[..k - 1] + [frames[k - 1]];
      DonePush(frames[..k - 1], frames[k - 1]);
    }
  }

  lemma NothingDone<S>()
    ensures DoneIds<S>([]) == {}
  {
  }

  lemma StepIsNew<S, I, O>(m: Model<S, I, O>, h: seq<Entry<I, O>>, frames: seq<Frame<S>>, state: S, k: nat)
    requires k < |frames| && StepOK(m, h, frames, state, k)
    ensures frames[k].id !in DoneIds(frames[..k])
  {
  }

  /** A call the cursor reaches before any return may come next. */
  lemma CursorMayBeNext<I, O>(h: seq<Entry<I, O>>, done: set<nat>, p: nat)
    requires WellFormed(h) && Live(h, done, p) && h[p].Call? && OnlyCallsBefore(h, done, p)
    ensures CallPos(h, h[p].id) == p
    ensures MayBeNext(h, done, h[p].id)
  {
    var c := h[p].id;
    assert h[CallPos(h, c)].id == h[p].id;
    forall b | b in Ids(h) && b !in done
      ensures !Precedes(h, b, c)
    {
      KnownId(h, b);
      assert h[ReturnPos(h, b)].id == b;
    }
  }

  lemma NoneBeforeGap<S, I, O>(m: Model<S, I, O>, h: seq<Entry<I, O>>, done: set<nat>, s: S, p: nat, q: nat)
    requires NoneBefore(m, h, done, s, p) && WellFormed(h)
    requires forall x :: p <= x < q ==> !Live(h, done, x)
    ensures NoneBefore(m, h, done, s, q)
  {
    forall c | MayBeNext(h, done, c) && CallPos(h, c) < q
      ensures !Succeeds(m, h, done, s, c)
    {
      KnownId(h, c);
      assert Live(h, done, CallPos(h, c));
    }
  }

  lemma ReturnIsHere<I, O>(h: seq<Entry<I, O>>, p: nat)
    requires WellFormed(h) && p < |h| && h[p].Return?
    ensures h[p].id in Ids(h) && ReturnPos(h, h[p].id) == p
  {
    assert h[ReturnPos(h, h[p].id)].id == h[p].id;
  }

  /** When the cursor reaches a return, the current pair leads nowhere. */
  lemma DeadEnd<S, I, O>(m: Model<S, I, O>, h: seq<Entry<I, O>>, done: set<nat>, s: S, p: nat)
    requires WellFormed(h) && Live(h, done, p) && h[p].Return? && NoneBefore(m, h, done, s, p)
    ensures !Completable(m, h, done, s)
  {
    hide Completable, Succeeds, WellFormed, CallPos, ReturnPos, Ids;
    if Completable(m, h, done, s) {
      ReturnIsHere(h, p);
      var c := FirstIsNext(m, h, done, s);
    }
  }

  // ----- the steps of the search

  lemma Begin<S, I, O>(m: Model<S, I, O>, h: seq<Entry<I, O>>, exact: bool)
    requires WellFormed(h)
    ensures Inv(m, h, [], m.init, 0, [], exact)
  {
  }

  /** Moving on after a call that cannot come next with success. */
  lemma Advance<S, I, O>(m: Model<S, I, O>, h: seq<Entry<I, O>>, frames: seq<Frame<S>>, state: S, p: nat, q: nat,
                         seen: seq<(set<nat>, S)>, exact: bool)
    requires Inv(m, h, frames, state, p, seen, exact)
    requires Live(h, DoneIds(frames), p) && h[p].Call? && p < q
    requires forall x :: p < x < q ==> !Live(h, DoneIds(frames), x)
    requires exact ==> !Succeeds(m, h, DoneIds(frames), state, h[p].id)
    ensures Inv(m, h, frames, state, q, seen, exact)
  {
    hide Succeeds;
    var done := DoneIds(frames);
    CursorMayBeNext(h, done, p);
    if exact {
      forall c | MayBeNext(h, done, c) && CallPos(h, c) < p + 1
        ensures !Succeeds(m, h, done, state, c)
      {
        if CallPos(h, c) == p {
          KnownId(h, c);
          assert c == h[p].id;
        }
      }
      NoneBeforeGap(m, h, done, state, p + 1, q);
    }
  }

  /** Linearizing the call under the cursor and starting over from the head of the list. */
  lemma Push<S, I, O>(m: Model<S, I, O>, h: seq<Entry<I, O>>, frames: seq<Frame<S>>, state: S, p: nat, q: nat,
                      seen: seq<(set<nat>, S)>, state': S, exact: bool)
    requires Inv(m, h, frames, state, p, seen, exact)
    requires Live(h, DoneIds(frames), p) && h[p].Call?
    requires CallPos(h, h[p].id) < |h| && ReturnPos(h, h[p].id) < |h|
    requires Apply(m, h, state, h[p].id) == (true, state')
    requires forall x :: 0 <= x < q ==> !Live(h, DoneIds(frames) + {h[p].id}, x)
    ensures Inv(m, h, frames + [Frame(h[p].id, state)], state', q,
                seen + [(DoneIds(frames) + {h[p].id}, state')], exact)
  {
    hide Succeeds, Completable, MayBeNext, PathOK, Explored, CacheOK;
    var done, f := DoneIds(frames), Frame(h[p].id, state);
    CursorMayBeNext(h, done, p);
    DonePush(frames, f);
    PushPath(m, h, frames, state, f, state');
    if exact {
      PushExplored(m, h, frames, state, p, f, state', q);
      PushCache(m, h, frames, state, seen, f, state');
    }
  }

  lemma PushPath<S, I, O>(m: Model<S, I, O>, h: seq<Entry<I, O>>, frames: seq<Frame<S>>, state: S, f: Frame<S>,
                          state': S)
    requires PathOK(m, h, frames, state) && f.state == state && MayBeNext(h, DoneIds(frames), f.id)
    requires CallPos(h, f.id) < |h| && ReturnPos(h, f.id) < |h| && Apply(m, h, state, f.id) == (true, state')
    ensures PathOK(m, h, frames + [f], state')
  {
    hide MayBeNext;
    var frames' := frames + [f];
    DonePush(frames, f);
    forall k | 0 <= k < |frames'|
      ensures StepOK(m, h, frames', state', k)
    {
      assert frames'[..k] == frames[..k];
      if k < |frames| {
        assert StepOK(m, h, frames, state, k);
      } else {
        assert frames[..k] == frames;
      }
    }
  }

  lemma PushExplored<S, I, O>(m: Model<S, I, O>, h: seq<Entry<I, O>>, frames: seq<Frame<S>>, state: S, p: nat,
                              f: Frame<S>, state': S, q: nat)
    requires WellFormed(h) && Explored(m, h, frames, state, p) && f.state == state && CallPos(h, f.id) == p
    requires forall x :: 0 <= x < q ==> !Live(h, DoneIds(frames) + {f.id}, x)
    ensures Explored(m, h, frames + [f], state', q)
  {
    hide NoneBefore;
    var frames' := frames + [f];
    DonePush(frames, f);
    NothingBefore(m, h, DoneIds(frames'), state', q);
    forall k | 0 <= k < |frames'|
      ensures NoneBefore(m, h, DoneIds(frames'[..k]), frames'[k].state, CallPos(h, frames'[k].id))
    {
      assert frames'[..k] == frames[..k];
    }
  }

  lemma NothingBefore<S, I, O>(m: Model<S, I, O>, h: seq<Entry<I, O>>, done: set<nat>, s: S, q: nat)
    requires WellFormed(h)
    requires forall x :: 0 <= x < q ==> !Live(h, done, x)
    ensures NoneBefore(m, h, done, s, q)
  {
    NoneBeforeGap(m, h, done, s, 0, q);
  }

  lemma PushCache<S, I, O>(m: Model<S, I, O>, h: seq<Entry<I, O>>, frames: seq<Frame<S>>, state: S,
                           seen: seq<(set<nat>, S)>, f: Frame<S>, state': S)
    requires CacheOK(m, h, frames, state, seen) && f.state == state
    ensures CacheOK(m, h, frames + [f], state', seen + [(DoneIds(frames) + {f.id}, state')])
  {
    hide Completable;
    var frames', seen' := frames + [f], seen + [(DoneIds(frames) + {f.id}, state')];
    DonePush(frames, f);
    forall k | 0 <= k < |seen'|
      ensures OnPath(frames', state', seen'[k]) || !Completable(m, h, seen'[k].0, seen'[k].1)
    {
      if k == |seen| {
        assert frames'[..|frames'|] == frames';
        assert seen'[k] == (DoneIds(frames'[..|frames'|]), StateAt(frames', state', |frames'|));
      } else if OnPath(frames, state, seen[k]) {
        var j :| 1 <= j <= |frames| && seen[k] == (DoneIds(frames[..j]), StateAt(frames, state, j));
        assert frames'[..j] == frames[..j];
        assert StateAt(frames', state', j) == StateAt(frames, state, j);
      }
    }
  }

  /** Backtracking from a dead end. */
  lemma Pop<S, I, O>(m: Model<S, I, O>, h: seq<Entry<I, O>>, frames: seq<Frame<S>>, state: S, p: nat, q: nat,
                     seen: seq<(set<nat>, S)>, done': set<nat>, exact: bool)
    requires Inv(m, h, frames, state, p, seen, exact) && frames != []
    requires Live(h, DoneIds(frames), p) && h[p].Return?
    requires done' == DoneIds(frames[..|frames| - 1]) && CallPos(h, frames[|frames| - 1].id) < q
    requires forall x :: CallPos(h, frames[|frames| - 1].id) < x < q ==> !Live(h, done', x)
    ensures Inv(m, h, frames[..|frames| - 1], frames[|frames| - 1].state, q, seen, exact)
  {
    hide Succeeds, Completable, MayBeNext;
    var n := |frames| - 1;
    var frames', top := frames[..n], frames[n];
    assert frames == frames' + [top];
    DonePush(frames', top);
    assert StepOK(m, h, frames, state, n);
    PopPath(m, h, frames, state);
    PopOnlyCalls(h, DoneIds(frames'), top.id);
    if exact {
      DeadEnd(m, h, DoneIds(frames), state, p);
      PopCache(m, h, frames, state, seen);
      PopFails(m, h, frames, state);
      assert forall k :: 0 <= k <= n ==> frames'[..k] == frames[..k];
    }
    assert Live(h, DoneIds(frames'), CallPos(h, top.id)) by { NextIsLive(h, DoneIds(frames'), top.id); }
    Advance(m, h, frames', top.state, CallPos(h, top.id), q, seen, exact);
  }

  lemma NextIsLive<I, O>(h: seq<Entry<I, O>>, done: set<nat>, c: nat)
    requires MayBeNext(h, done, c) && CallPos(h, c) < |h|
    ensures Live(h, done, CallPos(h, c))
  {
  }

  lemma PopPath<S, I, O>(m: Model<S, I, O>, h: seq<Entry<I, O>>, frames: seq<Frame<S>>, state: S)
    requires PathOK(m, h, frames, state) && frames != []
    ensures PathOK(m, h, frames[..|frames| - 1], frames[|frames| - 1].state)
  {
    hide MayBeNext;
    var n := |frames| - 1;
    var frames', s' := frames[..n], frames[n].state;
    forall k | 0 <= k < n
      ensures StepOK(m, h, frames', s', k)
    {
      assert StepOK(m, h, frames, state, k);
      assert frames'[..k] == frames[..k];
    }
  }

  lemma PopOnlyCalls<I, O>(h: seq<Entry<I, O>>, done: set<nat>, c: nat)
    requires WellFormed(h) && MayBeNext(h, done, c)
    ensures OnlyCallsBefore(h, done, CallPos(h, c))
  {
    forall q | 0 <= q < CallPos(h, c) && Live(h, done, q)
      ensures h[q].Call?
    {
      assert !Precedes(h, h[q].id, c);
      assert h[ReturnPos(h, h[q].id)].id == h[q].id;
    }
  }

  lemma PopFails<S, I, O>(m: Model<S, I, O>, h: seq<Entry<I, O>>, frames: seq<Frame<S>>, state: S)
    requires PathOK(m, h, frames, state) && frames != []
    requires !Completable(m, h, DoneIds(frames), state)
    ensures var n := |frames| - 1; !Succeeds(m, h, DoneIds(frames[..n]), frames[n].state, frames[n].id)
  {
    hide Completable;
    var n := |frames| - 1;
    assert frames == frames[..n] + [frames[n]];
    DonePush(frames[..n], frames[n]);
    assert StepOK(m, h, frames, state, n);
  }

  lemma PopCache<S, I, O>(m: Model<S, I, O>, h: seq<Entry<I, O>>, frames: seq<Frame<S>>, state: S,
                          seen: seq<(set<nat>, S)>)
    requires CacheOK(m, h, frames, state, seen) && frames != []
    requires !Completable(m, h, DoneIds(frames), state)
    ensures CacheOK(m, h, frames[..|frames| - 1], frames[|frames| - 1].state, seen)
  {
    hide Completable;
    var n := |frames| - 1;
    var frames', s' := frames[..n], frames[n].state;
    forall k | 0 <= k < |seen|
      ensures OnPath(frames', s', seen[k]) || !Completable(m, h, seen[k].0, seen[k].1)
    {
      if OnPath(frames, state, seen[k]) {
        var j :| 1 <= j <= |frames| && seen[k] == (DoneIds(frames[..j]), StateAt(frames, state, j));
        if j == |frames| {
          assert frames[..j] == frames;
        } else {
          assert frames'[..j] == frames[..j];
          assert StateAt(frames', s', j) == StateAt(frames, state, j);
        }
      }
    }
  }

  /**
   Pruning by the cache loses nothing: a pair with an equal one in the cache
   has no accepting completion, because the pairs on the path are smaller.
   */
  lemma CacheHitFails<S(!new), I(!new), O(!new)>(
      m: Model<S, I, O>, h: seq<Entry<I, O>>, frames: seq<Frame<S>>, state: S, p: nat, seen: seq<(set<nat>, S)>,
      c: nat, state': S, k: nat)
    requires Simulates(m) && Inv(m, h, frames, state, p, seen, true)
    requires c !in DoneIds(frames) && k < |seen|
    requires seen[k].0 == DoneIds(frames) + {c} && m.equal(state', seen[k].1)
    ensures !Completable(m, h, DoneIds(frames) + {c}, state')
  {
    hide Completable, Simulates, PathOK, WellFormed;
    NotOnPath(m, h, frames, state, c, seen[k]);
    if Completable(m, h, DoneIds(frames) + {c}, state') {
      EqualCompletable(m, h, DoneIds(frames) + {c}, state', seen[k].1);
    }
  }

  /** The pairs on the path have fewer operations than one more than the path. */
  lemma NotOnPath<S, I, O>(m: Model<S, I, O>, h: seq<Entry<I, O>>, frames: seq<Frame<S>>, state: S, c: nat,
                           entry: (set<nat>, S))
    requires PathOK(m, h, frames, state) && c !in DoneIds(frames) && entry.0 == DoneIds(frames) + {c}
    ensures !OnPath(frames, state, entry)
  {
    hide PathOK;
    assert frames[..|frames|] == frames;
    DoneSize(m, h, frames, state, |frames|);
    assert |entry.0| == |frames| + 1;
    forall j | 1 <= j <= |frames|
      ensures |DoneIds(frames[..j])| == j
    {
      DoneSize(m, h, frames, state, j);
    }
  }

  /** When nothing is left, the path is a linearization. */
  lemma {:induction false} PathCompletes<S, I, O>(m: Model<S, I, O>, h: seq<Entry<I, O>>, frames: seq<Frame<S>>,
                                                  state: S, k: nat)
    requires PathOK(m, h, frames, state) && k <= |frames| && Ids(h) <= DoneIds(frames)
    ensures Completable(m, h, DoneIds(frames[..k]), StateAt(frames, state, k))
    decreases |frames| - k
  {
    hide Completable, MayBeNext;
    if k == |frames| {
      assert frames[..k] == frames;
      NothingLeft(m, h, DoneIds(frames), state);
    } else {
      PathCompletes(m, h, frames, state, k + 1);
      assert StepOK(m, h, frames, state, k);
      assert frames[..k + 1] == frames[..k] + [frames[k]];
      DonePush(frames[..k], frames[k]);
      NextThenRest(m, h, DoneIds(frames[..k]), frames[k].state, frames[k].id);
    }
  }

  lemma Success<S, I, O>(m: Model<S, I, O>, h: seq<Entry<I, O>>, frames: seq<Frame<S>>, state: S)
    requires PathOK(m, h, frames, state) && Ids(h) <= DoneIds(frames)
    ensures Linearizable(m, h)
  {
    PathCompletes(m, h, frames, state, 0);
    assert frames[..0] == [];
  }

  lemma Failure<S, I, O>(m: Model<S, I, O>, h: seq<Entry<I, O>>, state: S, p: nat, seen: seq<(set<nat>, S)>)
    requires Inv(m, h, [], state, p, seen, true)
    requires Live(h, {}, p) && h[p].Return?
    ensures !Linearizable(m, h)
  {
    hide CacheOK, MayBeNext, Succeeds, Completable;
    var none: seq<Frame<S>> := [];
    assert DoneIds(none) == {} && StateAt(none, state, 0) == state;
    DeadEnd(m, h, {}, state, p);
  }
}
