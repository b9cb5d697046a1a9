/**
 Why the search ends, whatever the model's functions do: the positions on the
 undo stack followed by the cursor, read as digits, only ever grow in
 lexicographic order.
 */
module Countdown {
  import opened Collections
  import opened Linearizability
  import opened Search

  function Times(a: nat, b: nat): nat {
    a * b
  }

  function Weight(base: nat, levels: nat): nat {
    if levels == 0 then 1 else Times(base, Weight(base, levels - 1)) + 1
  }

  predicate ValidDigits(digits: seq<nat>, base: nat) {
    forall k :: 0 <= k < |digits| ==> 1 <= digits[k] <= base
  }

  /** How many steps may still follow a sequence of digits. */
  function Remaining(digits: seq<nat>, base: nat, levels: nat): nat
    requires ValidDigits(digits, base)
  {
    if levels == 0 then 1
    else if digits == [] then Weight(base, levels)
    else Times(base - digits[0], Weight(base, levels - 1)) + Remaining(digits[1..], base, levels - 1)
  }

  lemma Product(a: nat, b: nat, w: nat)
    requires a < b
    ensures Times(a, w) + w <= Times(b, w)
  {
    assert (b - a - 1) * w >= 0;
  }

  lemma {:induction false} RemainingBounds(digits: seq<nat>, base: nat, levels: nat)
    requires ValidDigits(digits, base)
    ensures 1 <= Remaining(digits, base, levels) <= Weight(base, levels)
    ensures digits != [] && levels > 0 ==> Remaining(digits, base, levels) < Weight(base, levels)
    decreases levels
  {
    hide Times;
    if levels > 0 && digits != [] {
      RemainingBounds(digits[1..], base, levels - 1);
      Product(base - digits[0], base, Weight(base, levels - 1));
    } else if levels > 0 {
      WeightPositive(base, levels);
    }
  }

  lemma WeightPositive(base: nat, levels: nat)
    ensures Weight(base, levels) >= 1
  {
  }

  /** Going one level deeper counts down. */
  lemma {:induction false} DeeperIsLess(digits: seq<nat>, d: nat, base: nat, levels: nat)
    requires ValidDigits(digits + [d], base) && ValidDigits(digits, base) && |digits| < levels
    ensures Remaining(digits + [d], base, levels) < Remaining(digits, base, levels)
    decreases levels
  {
    hide Times;
    if digits == [] {
      RemainingBounds(digits + [d], base, levels);
    } else {
      assert (digits + [d])[1..] == digits[1..] + [d];
      DeeperIsLess(digits[1..], d, base, levels - 1);
    }
  }

  /** Raising a digit counts down, whatever came after it. */
  lemma {:induction false} LaterIsLess(digits: seq<nat>, d: nat, d': nat, rest: seq<nat>, base: nat, levels: nat)
    requires ValidDigits(digits + [d] + rest, base) && ValidDigits(digits + [d'], base)
    requires d < d' && |digits| < levels
    ensures Remaining(digits + [d'], base, levels) < Remaining(digits + [d] + rest, base, levels)
    decreases levels
  {
    hide Times;
    var before, after := digits + [d] + rest, digits + [d'];
    if digits == [] {
      assert before[0] == d && before[1..] == rest && after[0] == d' && after[1..] == [];
      RemainingBounds(rest, base, levels - 1);
      RemainingBounds([], base, levels - 1);
      Product(base - d', base - d, Weight(base, levels - 1));
    } else {
      assert before[1..] == digits[1..] + [d] + rest && after[1..] == digits[1..] + [d'];
      LaterIsLess(digits[1..], d, d', rest, base, levels - 1);
    }
  }

  // ----- the digits of a search

  function Digits<S, I, O>(h: seq<Entry<I, O>>, frames: seq<Frame<S>>): seq<nat> {
    seq(|frames|, k requires 0 <= k < |frames| => CallPos(h, frames[k].id) + 1)
  }

  ghost predicate KnownFrames<S, I, O>(h: seq<Entry<I, O>>, frames: seq<Frame<S>>) {
    && (forall k :: 0 <= k < |frames| ==> CallPos(h, frames[k].id) < |h|)
    && |frames| <= |h|
  }

  /** The measure: it falls at every step of the search. */
  ghost function Fuel<S, I, O>(h: seq<Entry<I, O>>, frames: seq<Frame<S>>, p: nat): nat
    requires KnownFrames(h, frames) && p < |h|
  {
    Remaining(Digits(h, frames) + [p + 1], |h|, |h| + 2)
  }

  lemma FuelPositive<S, I, O>(h: seq<Entry<I, O>>, frames: seq<Frame<S>>, p: nat)
    requires KnownFrames(h, frames) && p < |h|
    ensures Fuel(h, frames, p) >= 1
  {
    RemainingBounds(Digits(h, frames) + [p + 1], |h|, |h| + 2);
  }

  lemma AdvanceBurns<S, I, O>(h: seq<Entry<I, O>>, frames: seq<Frame<S>>, p: nat, q: nat)
    requires KnownFrames(h, frames) && p < q < |h|
    ensures Fuel(h, frames, q) < Fuel(h, frames, p)
  {
    var ds := Digits(h, frames);
    assert ds + [p + 1] + [] == ds + [p + 1];
    LaterIsLess(ds, p + 1, q + 1, [], |h|, |h| + 2);
  }

  lemma DigitsPush<S, I, O>(h: seq<Entry<I, O>>, frames: seq<Frame<S>>, f: Frame<S>)
    ensures Digits(h, frames + [f]) == Digits(h, frames) + [CallPos(h, f.id) + 1]
  {
    hide CallPos;
  }

  lemma PushBurns<S, I, O>(h: seq<Entry<I, O>>, frames: seq<Frame<S>>, f: Frame<S>, q: nat)
    requires KnownFrames(h, frames + [f]) && KnownFrames(h, frames) && q < |h| && CallPos(h, f.id) < |h|
    ensures Fuel(h, frames + [f], q) < Fuel(h, frames, CallPos(h, f.id))
  {
    hide CallPos, Remaining;
    var ds := Digits(h, frames) + [CallPos(h, f.id) + 1];
    DigitsPush(h, frames, f);
    DeeperIsLess(ds, q + 1, |h|, |h| + 2);
  }

  lemma PopBurns<S, I, O>(h: seq<Entry<I, O>>, frames: seq<Frame<S>>, f: Frame<S>, p: nat, q: nat)
    requires KnownFrames(h, frames + [f]) && KnownFrames(h, frames) && p < |h| && CallPos(h, f.id) < q < |h|
    ensures Fuel(h, frames, q) < Fuel(h, frames + [f], p)
  {
    hide CallPos, Remaining;
    var ds, d := Digits(h, frames), CallPos(h, f.id) + 1;
    DigitsPush(h, frames, f);
    LaterIsLess(ds, d, q + 1, [p + 1], |h|, |h| + 2);
  }

  lemma {:induction false} IdsSize<I, O>(h: seq<Entry<I, O>>)
    ensures |Ids(h)| <= |h|
  {
    if h == [] {
      assert Ids(h) == {};
    } else {
      var h' := h[..|h| - 1];
      IdsSize(h');
      forall x
        ensures x in Ids(h) <==> x in Ids(h') || x == h[|h| - 1].id
      {
        if x in Ids(h) {
          var p :| 0 <= p < |h| && h[p].id == x;
          assert p < |h'| ==> h'[p].id == x;
        }
        if x in Ids(h') {
          var p :| 0 <= p < |h'| && h'[p].id == x;
          assert h[p].id == x;
        }
      }
      assert Ids(h) == Ids(h') + {h[|h| - 1].id};
    }
  }

  lemma PathIsKnown<S, I, O>(m: Model<S, I, O>, h: seq<Entry<I, O>>, frames: seq<Frame<S>>, state: S)
    requires PathOK(m, h, frames, state)
    ensures KnownFrames(h, frames)
  {
    forall k | 0 <= k < |frames|
      ensures CallPos(h, frames[k].id) < |h| && frames[k].id in Ids(h)
    {
      assert StepOK(m, h, frames, state, k);
    }
    DoneSize(m, h, frames, state, |frames|);
    assert frames[..|frames|] == frames;
    assert DoneIds(frames) <= Ids(h);
    SubsetSize(DoneIds(frames), Ids(h));
    IdsSize(h);
  }

}
