/**
 One phase of `schedule`: the event loop, the goroutines that run `do`, the
 goroutines that offer workers, and the channels between them, as a state
 machine in which any enabled step may happen next. `call` may succeed or
 fail at any time; a worker whose call failed is never offered again.
 */
module Scheduler {
  import opened Collections

  /** A worker's RPC address. */
  type Worker = string

  datatype Option<T> = None | Some(value: T)

  /** Where the loop of `schedule` is: at its `select`, waiting for a worker, or gone. */
  datatype Loop = Selecting | Holding(task: nat) | Returned

  /** Where one goroutine of `do` is: in `call`, sending on `doneTasks`, or sending on `idleTasks`. */
  datatype Do =
    | Calling(task: nat, worker: Worker)
    | Reporting(task: nat)
    | Requeuing(task: nat)

  /**
   `idleTasks` is the buffered channel, with room for `ntasks`. `registered`
   holds the workers that `registerChan` has yet to yield, `forwarder` what
   the forwarding goroutine is sending on `idleWorkers`, and `offering` what
   the goroutines started by `do` are sending there.
   */
  datatype Phase = Phase(
    ntasks: nat,
    idleTasks: seq<nat>,
    loop: Loop,
    doneCounter: nat,
    dos: seq<Do>,
    registered: set<Worker>,
    forwarder: Option<Worker>,
    offering: seq<Worker>)

  /** A label names the goroutine `dos[k]` and what passes through the channel or the call. */
  datatype Action =
    | Register(worker: Worker)
    | TakeTask
    | AssignNew(task: nat, worker: Worker)
    | AssignIdle(k: nat, task: nat, worker: Worker)
    | CallReturns(k: nat, task: nat, worker: Worker, ok: bool)
    | Requeue(k: nat, task: nat)
    | Count(k: nat, task: nat)

  /** The state after the loop that fills `idleTasks`. */
  function Init(ntasks: nat, workers: set<Worker>): Phase {
    Phase(ntasks, seq(ntasks, i => i), Selecting, 0, [], workers, None, [])
  }

  predicate Enabled(p: Phase, a: Action) {
    match a
    case Register(w) => w in p.registered && p.forwarder.None?
    case TakeTask => p.loop.Selecting? && p.idleTasks != []
    case AssignNew(t, w) => p.loop == Holding(t) && p.forwarder == Some(w)
    case AssignIdle(k, t, w) => p.loop == Holding(t) && k < |p.offering| && p.offering[k] == w
    case CallReturns(k, t, w, ok) => k < |p.dos| && p.dos[k] == Calling(t, w)
    case Requeue(k, t) => k < |p.dos| && p.dos[k] == Requeuing(t) && |p.idleTasks| < p.ntasks
    case Count(k, t) => k < |p.dos| && p.dos[k] == Reporting(t) && p.loop.Selecting?
  }

  function Effect(p: Phase, a: Action): Phase
    requires Enabled(p, a)
  {
    match a
    case Register(w) => p.(registered := p.registered - {w}, forwarder := Some(w))
    case TakeTask => p.(loop := Holding(p.idleTasks[0]), idleTasks := p.idleTasks[1..])
    case AssignNew(t, w) => p.(loop := Selecting, forwarder := None, dos := p.dos + [Calling(t, w)])
    case AssignIdle(k, t, w) =>
      p.(loop := Selecting, offering := Drop(p.offering, k), dos := p.dos + [Calling(t, w)])
    case CallReturns(k, t, w, ok) =>
      if ok then
        p.(dos := p.dos[k := Reporting(t)], offering := p.offering + [w])
      else
        p.(dos := p.dos[k := Requeuing(t)])
    case Requeue(k, t) => p.(dos := Drop(p.dos, k), idleTasks := p.idleTasks + [t])
    case Count(k, t) =>
      p.(dos := Drop(p.dos, k),
         doneCounter := p.doneCounter + 1,
         loop := if p.doneCounter + 1 == p.ntasks then Returned else Selecting)
  }

  predicate IsStep(p: Phase, a: Action, p': Phase) {
    Enabled(p, a) && p' == Effect(p, a)
  }

  predicate IsRun(ntasks: nat, workers: set<Worker>, states: seq<Phase>, actions: seq<Action>) {
    && |states| == |actions| + 1
    && states[0] == Init(ntasks, workers)
    && forall k :: 0 <= k < |actions| ==> IsStep(states[k], actions[k], states[k + 1])
  }

  // ----- what a run has done, read off its labels

  /** The tasks whose `call` returned true, one for each such call. */
  function Succeeded(actions: seq<Action>): multiset<nat> {
    if actions == [] then multiset{} else
      Succeeded(actions[..|actions| - 1]) + SuccessOf(actions[|actions| - 1])
  }

  function SuccessOf(a: Action): multiset<nat> {
    if a.CallReturns? && a.ok then multiset{a.task} else multiset{}
  }

  /** The workers whose `call` returned false. */
  function Failed(actions: seq<Action>): multiset<Worker> {
    if actions == [] then multiset{} else
      Failed(actions[..|actions| - 1]) + FailureOf(actions[|actions| - 1])
  }

  function FailureOf(a: Action): multiset<Worker> {
    if a.CallReturns? && !a.ok then multiset{a.worker} else multiset{}
  }

  /** The tasks received from `doneTasks`. */
  function Counted(actions: seq<Action>): multiset<nat> {
    if actions == [] then multiset{} else
      Counted(actions[..|actions| - 1]) + CountOf(actions[|actions| - 1])
  }

  function CountOf(a: Action): multiset<nat> {
    if a.Count? then multiset{a.task} else multiset{}
  }

  /** The tasks handed to workers, in order. */
  function Assigned(actions: seq<Action>): seq<nat> {
    if actions == [] then [] else
      Assigned(actions[..|actions| - 1]) + AssignmentOf(actions[|actions| - 1])
  }

  function AssignmentOf(a: Action): seq<nat> {
    if a.AssignNew? || a.AssignIdle? then [a.task] else []
  }

  /** The tasks put back into the queue, in order. */
  function Requeued(actions: seq<Action>): seq<nat> {
    if actions == [] then [] else
      Requeued(actions[..|actions| - 1]) + RequeueOf(actions[|actions| - 1])
  }

  function RequeueOf(a: Action): seq<nat> {
    if a.Requeue? then [a.task] else []
  }

  /** The number of `DoTask` calls issued. */
  function Issued(actions: seq<Action>): nat {
    if actions == [] then 0 else
      Issued(actions[..|actions| - 1]) + IssuesOf(actions[|actions| - 1])
  }

  function IssuesOf(a: Action): nat {
    if a.AssignNew? || a.AssignIdle? then 1 else 0
  }

  function AllTasks(n: nat): multiset<nat> {
    multiset(seq(n, i => i))
  }

  // ----- where tasks and workers are

  function Bit(b: bool): nat {
    if b then 1 else 0
  }

  /** The number of goroutines of `do` that satisfy `at`. */
  function Those(at: Do -> bool, dos: seq<Do>): nat {
    if dos == [] then 0 else Those(at, dos[..|dos| - 1]) + Bit(at(dos[|dos| - 1]))
  }

  function HasTask(t: nat): Do -> bool {
    (d: Do) => d.task == t
  }

  function Reports(t: nat): Do -> bool {
    (d: Do) => d == Reporting(t)
  }

  function UsesWorker(w: Worker): Do -> bool {
    (d: Do) => d.Calling? && d.worker == w
  }

  function InCall(): Do -> bool {
    (d: Do) => d.Calling?
  }

  function InReport(): Do -> bool {
    (d: Do) => d.Reporting?
  }

  lemma Added(at: Do -> bool, dos: seq<Do>, d: Do)
    ensures Those(at, dos + [d]) == Those(at, dos) + Bit(at(d))
  {
    assert (dos + [d])[..|dos|] == dos;
  }

  lemma {:induction false} Dropped(at: Do -> bool, dos: seq<Do>, k: nat)
    requires k < |dos|
    ensures Those(at, Drop(dos, k)) + Bit(at(dos[k])) == Those(at, dos)
  {
    var front, d := dos[..|dos| - 1], dos[|dos| - 1];
    if k == |dos| - 1 {
      assert Drop(dos, k) == front;
    } else {
      Dropped(at, front, k);
      assert Drop(dos, k) == Drop(front, k) + [d];
      Added(at, Drop(front, k), d);
    }
  }

  lemma {:induction false} Replaced(at: Do -> bool, dos: seq<Do>, k: nat, d: Do)
    requires k < |dos|
    ensures Those(at, dos[k := d]) + Bit(at(dos[k])) == Those(at, dos) + Bit(at(d))
  {
    var front, last := dos[..|dos| - 1], dos[|dos| - 1];
    if k == |dos| - 1 {
      assert dos[k := d] == front + [d];
      Added(at, front, d);
    } else {
      Replaced(at, front, k, d);
      assert dos[k := d] == front[k := d] + [last];
      Added(at, front[k := d], last);
    }
  }

  lemma {:induction false} KindsFit(dos: seq<Do>)
    ensures Those(InCall(), dos) + Those(InReport(), dos) <= |dos|
  {
    if dos != [] {
      KindsFit(dos[..|dos| - 1]);
    }
  }

  lemma {:induction false} Present(at: Do -> bool, dos: seq<Do>, k: nat)
    requires k < |dos| && at(dos[k])
    ensures Those(at, dos) >= 1
  {
    if k < |dos| - 1 {
      Present(at, dos[..|dos| - 1], k);
    }
  }

  lemma {:induction false} Find(at: Do -> bool, dos: seq<Do>) returns (k: nat)
    requires Those(at, dos) >= 1
    ensures k < |dos| && at(dos[k])
  {
    if at(dos[|dos| - 1]) {
      k := |dos| - 1;
    } else {
      k := Find(at, dos[..|dos| - 1]);
    }
  }

  /** The change of one count of goroutines by one step. */
  lemma DosChange(p: Phase, a: Action, at: Do -> bool)
    requires Enabled(p, a)
    ensures var p' := Effect(p, a);
            match a {
              case Register(_) => Those(at, p'.dos) == Those(at, p.dos)
              case TakeTask => Those(at, p'.dos) == Those(at, p.dos)
              case AssignNew(t, w) => Those(at, p'.dos) == Those(at, p.dos) + Bit(at(Calling(t, w)))
              case AssignIdle(_, t, w) => Those(at, p'.dos) == Those(at, p.dos) + Bit(at(Calling(t, w)))
              case CallReturns(_, t, w, ok) =>
                Those(at, p'.dos) + Bit(at(Calling(t, w)))
                == Those(at, p.dos) + Bit(at(if ok then Reporting(t) else Requeuing(t)))
              case Requeue(_, t) => Those(at, p'.dos) + Bit(at(Requeuing(t))) == Those(at, p.dos)
              case Count(_, t) => Those(at, p'.dos) + Bit(at(Reporting(t))) == Those(at, p.dos)
            }
  {
    match a
    case Register(_) =>
    case TakeTask =>
    case AssignNew(t, w) => Added(at, p.dos, Calling(t, w));
    case AssignIdle(_, t, w) => Added(at, p.dos, Calling(t, w));
    case CallReturns(k, t, w, ok) => Replaced(at, p.dos, k, if ok then Reporting(t) else Requeuing(t));
    case Requeue(k, t) => Dropped(at, p.dos, k);
    case Count(k, t) => Dropped(at, p.dos, k);
  }

  // ----- conservation

  function Queued(p: Phase, t: nat): nat {
    multiset(p.idleTasks)[t]
  }

  /** How many times task `t` is in the queue, held by the loop, or with a goroutine of `do`. */
  function TaskPlaces(p: Phase, t: nat): nat {
    Queued(p, t) + Bit(p.loop == Holding(t)) + Those(HasTask(t), p.dos)
  }

  /** How many times worker `w` is still to come, being offered, or in a call. */
  function WorkerPlaces(p: Phase, w: Worker): nat {
    Bit(w in p.registered) + Bit(p.forwarder == Some(w)) + multiset(p.offering)[w] + Those(UsesWorker(w), p.dos)
  }

  ghost predicate TaskOnce(p: Phase, succeeded: multiset<nat>, counted: multiset<nat>, t: nat) {
    && TaskPlaces(p, t) + counted[t] == Bit(t < p.ntasks)
    && succeeded[t] == counted[t] + Those(Reports(t), p.dos)
  }

  ghost predicate WorkerOnce(p: Phase, workers: set<Worker>, failed: multiset<Worker>, w: Worker) {
    WorkerPlaces(p, w) + failed[w] == Bit(w in workers)
  }

  /** The same two conservation laws, in numbers, and the counter. */
  ghost predicate Totals(p: Phase, workers: nat, succeeded: nat, failed: nat, counted: nat, issued: nat) {
    && |p.idleTasks| + Bit(p.loop.Holding?) + |p.dos| + counted == p.ntasks
    && |p.registered| + Bit(p.forwarder.Some?) + |p.offering| + Those(InCall(), p.dos) + failed == workers
    && succeeded == counted + Those(InReport(), p.dos)
    && issued == succeeded + failed + Those(InCall(), p.dos)
    && p.doneCounter == counted
    && (p.loop.Returned? <==> counted == p.ntasks && p.ntasks > 0)
  }

  /** The change of the queue by one step. */
  lemma QueueChange(p: Phase, a: Action, t: nat)
    requires Enabled(p, a)
    ensures var p' := Effect(p, a);
            match a {
              case TakeTask => Queued(p, t) == Queued(p', t) + Bit(p'.loop == Holding(t))
              case Requeue(_, task) => Queued(p', t) == Queued(p, t) + Bit(task == t)
              case _ => Queued(p', t) == Queued(p, t)
            }
  {
    if a.TakeTask? {
      assert p.idleTasks == [p.idleTasks[0]] + p.idleTasks[1..];
    }
  }

  lemma TaskKept(p: Phase, a: Action, succeeded: multiset<nat>, counted: multiset<nat>, t: nat)
    requires TaskOnce(p, succeeded, counted, t) && Enabled(p, a)
    ensures TaskOnce(Effect(p, a), succeeded + SuccessOf(a), counted + CountOf(a), t)
  {
    hide Those, Queued, Drop;
    DosChange(p, a, HasTask(t));
    DosChange(p, a, Reports(t));
    QueueChange(p, a, t);
  }

  lemma WorkerKept(p: Phase, a: Action, workers: set<Worker>, failed: multiset<Worker>, w: Worker)
    requires WorkerOnce(p, workers, failed, w) && Enabled(p, a)
    ensures WorkerOnce(Effect(p, a), workers, failed + FailureOf(a), w)
  {
    hide Those;
    DosChange(p, a, UsesWorker(w));
    if a.AssignIdle? {
      assert p.offering == p.offering[..a.k] + [p.offering[a.k]] + p.offering[a.k + 1..];
    }
  }

  lemma TotalsKept(p: Phase, a: Action, workers: nat, succeeded: nat, failed: nat, counted: nat, issued: nat)
    requires Totals(p, workers, succeeded, failed, counted, issued) && Enabled(p, a)
    ensures Totals(Effect(p, a), workers, succeeded + |SuccessOf(a)|, failed + |FailureOf(a)|,
                   counted + |CountOf(a)|, issued + IssuesOf(a))
  {
    hide Those;
    DosChange(p, a, InCall());
    DosChange(p, a, InReport());
  }

  // ----- over whole runs

  /** What holds after a run, in terms of what its labels say it did. */
  ghost predicate Inv(p: Phase, ntasks: nat, workers: set<Worker>, actions: seq<Action>) {
    && p.ntasks == ntasks
    && (forall t :: TaskOnce(p, Succeeded(actions), Counted(actions), t))
    && (forall w :: WorkerOnce(p, workers, Failed(actions), w))
    && Totals(p, |workers|, |Succeeded(actions)|, |Failed(actions)|, |Counted(actions)|, Issued(actions))
  }

  lemma InitOnce(ntasks: nat, t: nat)
    ensures multiset(seq(ntasks, i => i))[t] == Bit(t < ntasks)
    decreases ntasks
  {
    if ntasks > 0 {
      InitOnce(ntasks - 1, t);
      assert seq(ntasks, i => i) == seq(ntasks - 1, i => i) + [ntasks - 1];
    }
  }

  lemma InvInit(ntasks: nat, workers: set<Worker>)
    ensures Inv(Init(ntasks, workers), ntasks, workers, [])
  {
    forall t
      ensures TaskOnce(Init(ntasks, workers), multiset{}, multiset{}, t)
    {
      InitOnce(ntasks, t);
    }
  }

  lemma OneMore(actions: seq<Action>, a: Action)
    ensures Succeeded(actions + [a]) == Succeeded(actions) + SuccessOf(a)
    ensures Failed(actions + [a]) == Failed(actions) + FailureOf(a)
    ensures Counted(actions + [a]) == Counted(actions) + CountOf(a)
    ensures Issued(actions + [a]) == Issued(actions) + IssuesOf(a)
  {
    assert (actions + [a])[..|actions|] == actions;
  }

  lemma InvKept(p: Phase, a: Action, ntasks: nat, workers: set<Worker>, actions: seq<Action>)
    requires Inv(p, ntasks, workers, actions) && Enabled(p, a)
    ensures Inv(Effect(p, a), ntasks, workers, actions + [a])
  {
    hide TaskOnce, WorkerOnce, Totals, Succeeded, Failed, Counted, Issued;
    OneMore(actions, a);
    forall t
      ensures TaskOnce(Effect(p, a), Succeeded(actions + [a]), Counted(actions + [a]), t)
    {
      TaskKept(p, a, Succeeded(actions), Counted(actions), t);
    }
    forall w
      ensures WorkerOnce(Effect(p, a), workers, Failed(actions + [a]), w)
    {
      WorkerKept(p, a, workers, Failed(actions), w);
    }
    TotalsKept(p, a, |workers|, |Succeeded(actions)|, |Failed(actions)|, |Counted(actions)|, Issued(actions));
  }

  lemma {:induction false} RunInv(ntasks: nat, workers: set<Worker>, states: seq<Phase>, actions: seq<Action>, k: nat)
    requires IsRun(ntasks, workers, states, actions) && k < |states|
    ensures Inv(states[k], ntasks, workers, actions[..k])
  {
    hide Inv, Init, Effect, Enabled;
    if k == 0 {
      InvInit(ntasks, workers);
      assert actions[..0] == [];
    } else {
      RunInv(ntasks, workers, states, actions, k - 1);
      assert IsStep(states[k - 1], actions[k - 1], states[k]);
      InvKept(states[k - 1], actions[k - 1], ntasks, workers, actions[..k - 1]);
      assert actions[..k] == actions[..k - 1] + [actions[k - 1]];
    }
  }

  // ----- how long a run can be

  /** What a phase has left to spend: every step costs at least one. */
  function Budget(p: Phase): int {
    5 * |p.idleTasks| + 4 * Bit(p.loop.Holding?)
    + 12 * |p.registered| + 11 * Bit(p.forwarder.Some?) + 11 * |p.offering|
    + 6 * |p.dos| + 7 * Those(InCall(), p.dos) - 5 * Those(InReport(), p.dos)
  }

  lemma StepCosts(p: Phase, a: Action)
    requires Enabled(p, a)
    ensures Budget(Effect(p, a)) < Budget(p)
  {
    hide Those;
    DosChange(p, a, InCall());
    DosChange(p, a, InReport());
  }

  lemma FirstBudget(ntasks: nat, workers: set<Worker>)
    ensures Budget(Init(ntasks, workers)) == 5 * ntasks + 12 * |workers|
  {
  }

  lemma {:induction false} RunCosts(ntasks: nat, workers: set<Worker>, states: seq<Phase>, actions: seq<Action>, k: nat)
    requires IsRun(ntasks, workers, states, actions) && k < |states|
    ensures k + Budget(states[k]) <= 5 * ntasks + 12 * |workers|
  {
    hide Budget, Effect, Enabled, Init;
    if k == 0 {
      FirstBudget(ntasks, workers);
    } else {
      RunCosts(ntasks, workers, states, actions, k - 1);
      assert IsStep(states[k - 1], actions[k - 1], states[k]);
      StepCosts(states[k - 1], actions[k - 1]);
    }
  }
}
