/**
 Histories of events with arbitrary operation ids: `renumber` gives them small
 ids, and nothing about linearizability changes.
 */
module Events {
  import opened Collections
  import opened Linearizability

  function WithId<I, O>(e: Entry<I, O>, id: nat): Entry<I, O> {
    e.(id := id)
  }

  /** `h'` is `h` with every id renamed by `f`, which keeps different ids different. */
  ghost predicate Renamed<I, O>(h: seq<Entry<I, O>>, h': seq<Entry<I, O>>, f: map<nat, nat>) {
    && |h'| == |h|
    && (forall p :: 0 <= p < |h| ==> h[p].id in f && h'[p] == WithId(h[p], f[h[p].id]))
    && Injective(f)
  }

  ghost predicate Injective(f: map<nat, nat>) {
    forall x, y :: x in f && y in f && f[x] == f[y] ==> x == y
  }

  ghost function Inverse(f: map<nat, nat>): map<nat, nat>
    requires Injective(f)
  {
    map y | y in f.Values :: Preimage(f, y)
  }

  ghost function Preimage(f: map<nat, nat>, y: nat): (x: nat)
    requires y in f.Values
    ensures x in f && f[x] == y
  {
    var x :| x in f && f[x] == y;
    x
  }

  lemma InverseRenames<I, O>(h: seq<Entry<I, O>>, h': seq<Entry<I, O>>, f: map<nat, nat>)
    requires Renamed(h, h', f)
    ensures Renamed(h', h, Inverse(f))
  {
    var g := Inverse(f);
    forall p | 0 <= p < |h|
      ensures h'[p].id in g && h[p] == WithId(h'[p], g[h'[p].id])
    {
      assert f[h[p].id] in f.Values;
    }
  }

  lemma RenamedPositions<I, O>(h: seq<Entry<I, O>>, h': seq<Entry<I, O>>, f: map<nat, nat>, id: nat)
    requires Renamed(h, h', f) && id in f
    ensures CallPos(h', f[id]) == CallPos(h, id) && ReturnPos(h', f[id]) == ReturnPos(h, id)
  {
    var c, c' := CallPos(h, id), CallPos(h', f[id]);
    assert c < |h| ==> h'[c].Call? && h'[c].id == f[id];
    assert c' < |h| ==> h[c'].Call? && h[c'].id == id;
    var r, r' := ReturnPos(h, id), ReturnPos(h', f[id]);
    assert r < |h| ==> h'[r].Return? && h'[r].id == f[id];
    assert r' < |h| ==> h[r'].Return? && h[r'].id == id;
  }

  lemma RenamedWellFormed<I, O>(h: seq<Entry<I, O>>, h': seq<Entry<I, O>>, f: map<nat, nat>)
    requires Renamed(h, h', f) && WellFormed(h)
    ensures WellFormed(h')
  {
    hide CallPos, ReturnPos;
    forall p | 0 <= p < |h'|
      ensures CallPos(h', h'[p].id) < ReturnPos(h', h'[p].id) < |h'|
    {
      RenamedPositions(h, h', f, h[p].id);
    }
    forall p, q | 0 <= p < q < |h'| && h'[p].id == h'[q].id
      ensures h'[p].Call? != h'[q].Call?
    {
      assert h[p].id == h[q].id;
    }
  }

  function Rename(f: map<nat, nat>, ids: seq<nat>): seq<nat>
    requires forall k :: 0 <= k < |ids| ==> ids[k] in f
  {
    seq(|ids|, k requires 0 <= k < |ids| => f[ids[k]])
  }

  lemma {:induction false} RenamedAccepts<S, I, O>(m: Model<S, I, O>, h: seq<Entry<I, O>>, h': seq<Entry<I, O>>,
                                                   f: map<nat, nat>, s: S, ids: seq<nat>)
    requires Renamed(h, h', f) && (forall k :: 0 <= k < |ids| ==> ids[k] in f) && Accepted(m, h, s, ids)
    ensures Accepted(m, h', s, Rename(f, ids))
    decreases |ids|
  {
    hide CallPos, ReturnPos;
    if ids != [] {
      RenamedPositions(h, h', f, ids[0]);
      assert Rename(f, ids)[1..] == Rename(f, ids[1..]);
      RenamedAccepts(m, h, h', f, Apply(m, h, s, ids[0]).1, ids[1..]);
    }
  }

  lemma KnownIds<I, O>(h: seq<Entry<I, O>>, h': seq<Entry<I, O>>, f: map<nat, nat>, ids: seq<nat>)
    requires Renamed(h, h', f) && IsOrder(h, {}, ids)
    ensures forall k :: 0 <= k < |ids| ==> ids[k] in f && ids[k] in Ids(h)
  {
    forall k | 0 <= k < |ids|
      ensures ids[k] in f && ids[k] in Ids(h)
    {
      assert ids[k] in ids;
      var p :| 0 <= p < |h| && h[p].id == ids[k];
    }
  }

  lemma RenamedIds<I, O>(h: seq<Entry<I, O>>, h': seq<Entry<I, O>>, f: map<nat, nat>, ids: seq<nat>)
    requires Renamed(h, h', f) && IsOrder(h, {}, ids)
    requires forall k :: 0 <= k < |ids| ==> ids[k] in f && ids[k] in Ids(h)
    ensures forall x :: x in Rename(f, ids) <==> x in Ids(h')
  {
    var ids' := Rename(f, ids);
    forall x | x in ids'
      ensures x in Ids(h')
    {
      var k :| 0 <= k < |ids'| && ids'[k] == x;
      var p :| 0 <= p < |h| && h[p].id == ids[k];
      assert h'[p].id == x;
    }
    forall x | x in Ids(h')
      ensures x in ids'
    {
      var p :| 0 <= p < |h'| && h'[p].id == x;
      assert h[p].id in Ids(h);
      assert h[p].id in ids;
      var k :| 0 <= k < |ids| && ids[k] == h[p].id;
      assert ids'[k] == x;
    }
  }

  lemma RenamedOrder<I, O>(h: seq<Entry<I, O>>, h': seq<Entry<I, O>>, f: map<nat, nat>, ids: seq<nat>)
    requires Renamed(h, h', f) && IsOrder(h, {}, ids)
    requires forall k :: 0 <= k < |ids| ==> ids[k] in f && ids[k] in Ids(h)
    ensures IsOrder(h', {}, Rename(f, ids))
  {
    hide CallPos, ReturnPos, Ids;
    var ids' := Rename(f, ids);
    RenamedIds(h, h', f, ids);
    forall i, j | 0 <= i < j < |ids'|
      ensures ids'[i] != ids'[j] && !Precedes(h', ids'[j], ids'[i])
    {
      RenamedPositions(h, h', f, ids[i]);
      RenamedPositions(h, h', f, ids[j]);
      assert !Precedes(h, ids[j], ids[i]);
    }
  }

  lemma RenamedLinearizable<S, I, O>(m: Model<S, I, O>, h: seq<Entry<I, O>>, h': seq<Entry<I, O>>, f: map<nat, nat>)
    requires Renamed(h, h', f) && Linearizable(m, h)
    ensures Linearizable(m, h')
  {
    hide IsOrder, Accepted, Renamed;
    var ids :| IsOrder(h, {}, ids) && Accepted(m, h, m.init, ids);
    KnownIds(h, h', f, ids);
    RenamedOrder(h, h', f, ids);
    RenamedAccepts(m, h, h', f, m.init, ids);
  }

  /** Renaming ids one to one changes nothing about linearizability. */
  lemma RenamingIsNeutral<S, I, O>(m: Model<S, I, O>, h: seq<Entry<I, O>>, h': seq<Entry<I, O>>, f: map<nat, nat>)
    requires Renamed(h, h', f)
    ensures Linearizable(m, h) <==> Linearizable(m, h')
    ensures WellFormed(h) ==> WellFormed(h')
  {
    hide Linearizable, WellFormed;
    if Linearizable(m, h) {
      RenamedLinearizable(m, h, h', f);
    }
    if Linearizable(m, h') {
      InverseRenames(h, h', f);
      RenamedLinearizable(m, h', h, Inverse(f));
    }
    if WellFormed(h) {
      RenamedWellFormed(h, h', f);
    }
  }

  // ----- renumber

  /** `f` numbers the ids it knows from 0 on, without gaps. */
  ghost predicate Dense(f: map<nat, nat>) {
    Injective(f) && forall y: nat :: y in f.Values <==> y < |f|
  }

  lemma NewNumber(f: map<nat, nat>, x: nat)
    requires Dense(f) && x !in f
    ensures Dense(f[x := |f|]) && Injective(f[x := |f|])
    ensures |f[x := |f|]| == |f| + 1 && f[x := |f|].Keys == f.Keys + {x}
  {
    var f' := f[x := |f|];
    assert f'.Keys == f.Keys + {x};
    forall y: nat
      ensures y in f'.Values <==> y < |f'|
    {
      if y in f.Values {
        assert f'[Preimage(f, y)] == y;
      }
      if y == |f| {
        assert f'[x] == y;
      }
    }
    forall a, b | a in f' && b in f' && f'[a] == f'[b]
      ensures a == b
    {
      assert a in f ==> f[a] in f.Values;
      assert b in f ==> f[b] in f.Values;
    }
  }

  lemma RenamedPush<I, O>(h: seq<Entry<I, O>>, h': seq<Entry<I, O>>, f: map<nat, nat>, e: Entry<I, O>,
                          f': map<nat, nat>)
    requires Renamed(h, h', f) && Injective(f') && e.id in f'
    requires forall x :: x in f ==> x in f' && f'[x] == f[x]
    ensures Renamed(h + [e], h' + [WithId(e, f'[e.id])], f')
  {
  }

  lemma IdsPush<I, O>(h: seq<Entry<I, O>>, e: Entry<I, O>)
    ensures Ids(h + [e]) == Ids(h) + {e.id}
  {
    var h' := h + [e];
    forall x
      ensures x in Ids(h') <==> x in Ids(h) || x == e.id
    {
      if x in Ids(h) {
        var p :| 0 <= p < |h| && h[p].id == x;
        assert h'[p].id == x;
      }
      assert h'[|h|].id == e.id;
    }
  }

  /** `r` is `h` with its ids renamed by `f` onto 0, 1, 2, ... without a gap. */
  ghost predicate Numbering<I, O>(h: seq<Entry<I, O>>, r: seq<Entry<I, O>>, f: map<nat, nat>) {
    Renamed(h, r, f) && f.Keys == Ids(h) && Dense(f)
  }

  lemma KnownEvent<I, O>(h: seq<Entry<I, O>>, r: seq<Entry<I, O>>, f: map<nat, nat>, e: Entry<I, O>)
    requires Numbering(h, r, f) && e.id in f
    ensures Numbering(h + [e], r + [WithId(e, f[e.id])], f)
  {
    hide Renamed, Dense, Injective, Ids, WithId;
    DenseIsInjective(f);
    RenamedPush(h, r, f, e, f);
    IdsPush(h, e);
  }

  lemma NewEvent<I, O>(h: seq<Entry<I, O>>, r: seq<Entry<I, O>>, f: map<nat, nat>, e: Entry<I, O>)
    requires Numbering(h, r, f) && e.id !in f
    ensures Numbering(h + [e], r + [WithId(e, |f|)], f[e.id := |f|])
    ensures |f[e.id := |f|]| == |f| + 1
  {
    hide Renamed, Dense, Injective, Ids, WithId;
    NewNumber(f, e.id);
    RenamedPush(h, r, f, e, f[e.id := |f|]);
    IdsPush(h, e);
  }

  method Renumber<I, O>(events: seq<Entry<I, O>>) returns (r: seq<Entry<I, O>>)
    ensures exists f :: Numbering(events, r, f)
  {
    hide Renamed, Dense, Ids, WithId;
    r := [];
    var m: map<nat, nat> := map[];
    var id := 0;
    var i := 0;
    NothingRenamed<I, O>();
    while i < |events|
      invariant 0 <= i <= |events|
      invariant Numbering(events[..i], r, m) && id == |m|
    {
      var e := events[i];
      assert events[..i + 1] == events[..i] + [e];
      if e.id in m {
        KnownEvent(events[..i], r, m, e);
        r := r + [WithId(e, m[e.id])];
      } else {
        NewEvent(events[..i], r, m, e);
        r := r + [WithId(e, id)];
        m := m[e.id := id];
        id := id + 1;
      }
      i := i + 1;
    }
    assert events[..i] == events;
  }

  lemma NothingRenamed<I, O>()
    ensures Numbering<I, O>([], [], map[])
  {
  }

  lemma DenseIsInjective(f: map<nat, nat>)
    requires Dense(f)
    ensures Injective(f)
  {
  }

  // ----- a complete history has twice as many entries as operations

  ghost function Image(f: nat -> nat, s: set<nat>): set<nat> {
    set x | x in s :: f(x)
  }

  lemma {:induction false} ImageSize(f: nat -> nat, s: set<nat>)
    requires forall x, y :: x in s && y in s && f(x) == f(y) ==> x == y
    ensures |Image(f, s)| == |s|
  {
    if s == {} {
      assert Image(f, s) == {};
    } else {
      var x :| x in s;
      ImageSize(f, s - {x});
      assert Image(f, s) == Image(f, s - {x}) + {f(x)};
    }
  }

  ghost function CallPositions<I, O>(h: seq<Entry<I, O>>): set<nat> {
    Image(id => CallPos(h, id), Ids(h))
  }

  ghost function ReturnPositions<I, O>(h: seq<Entry<I, O>>): set<nat> {
    Image(id => ReturnPos(h, id), Ids(h))
  }

  lemma PositionCounts<I, O>(h: seq<Entry<I, O>>)
    requires WellFormed(h)
    ensures |CallPositions(h)| == |Ids(h)| == |ReturnPositions(h)|
  {
    hide WellFormed, CallPos, ReturnPos, Ids;
    forall x, y | x in Ids(h) && y in Ids(h)
      ensures CallPos(h, x) == CallPos(h, y) ==> x == y
      ensures ReturnPos(h, x) == ReturnPos(h, y) ==> x == y
    {
      KnownId(h, x);
      KnownId(h, y);
    }
    ImageSize(id => CallPos(h, id), Ids(h));
    ImageSize(id => ReturnPos(h, id), Ids(h));
  }

  lemma AllPositions<I, O>(h: seq<Entry<I, O>>)
    requires WellFormed(h)
    ensures forall p: nat :: p < |h| <==> p in CallPositions(h) || p in ReturnPositions(h)
    ensures CallPositions(h) !! ReturnPositions(h)
  {
    hide WellFormed, CallPos, ReturnPos;
    forall p: nat | p < |h|
      ensures p in CallPositions(h) || p in ReturnPositions(h)
    {
      OwnPosition(h, p);
      assert h[p].id in Ids(h);
    }
    forall p: nat | p in CallPositions(h)
      ensures p < |h| && h[p].Call?
    {
      var id :| id in Ids(h) && CallPos(h, id) == p;
      KnownId(h, id);
    }
    forall p: nat | p in ReturnPositions(h)
      ensures p < |h| && h[p].Return?
    {
      var id :| id in Ids(h) && ReturnPos(h, id) == p;
      KnownId(h, id);
    }
  }

  lemma TwoEntriesEach<I, O>(h: seq<Entry<I, O>>)
    requires WellFormed(h)
    ensures |h| == 2 * |Ids(h)|
  {
    hide WellFormed, CallPos, ReturnPos, Ids;
    var c, r := CallPositions(h), ReturnPositions(h);
    PositionCounts(h);
    AllPositions(h);
    InitialSegment(|h|, c + r);
    assert |c + r| == |c| + |r|;
  }
}
