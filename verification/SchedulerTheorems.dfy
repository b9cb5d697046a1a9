/**
 What `schedule` guarantees in every interleaving: no task and no worker is
 ever lost or doubled, the phase returns exactly when every task has had its
 one successful call counted, it issues few calls, and it cannot stop short
 of that while a worker has not failed.
 */
module SchedulerTheorems {
  import opened Collections
  import opened Scheduler

  /**
   Task conservation: at every moment each task number of the phase is in the
   queue, held by the loop, with one goroutine of `do`, or counted, and in
   exactly one of these, once.
   */
  lemma EachTaskInOnePlace(ntasks: nat, workers: set<Worker>, states: seq<Phase>, actions: seq<Action>, k: nat, t: nat)
    requires IsRun(ntasks, workers, states, actions) && k < |states|
    ensures TaskPlaces(states[k], t) + Counted(actions[..k])[t] == Bit(t < ntasks)
    ensures Counted(actions[..k])[t] <= Succeeded(actions[..k])[t] <= 1
  {
    RunInv(ntasks, workers, states, actions, k);
    assert TaskOnce(states[k], Succeeded(actions[..k]), Counted(actions[..k]), t);
    ReportsHaveTask(states[k].dos, t);
  }

  lemma {:induction false} ReportsHaveTask(dos: seq<Do>, t: nat)
    ensures Those(Reports(t), dos) <= Those(HasTask(t), dos)
  {
    if dos != [] {
      ReportsHaveTask(dos[..|dos| - 1], t);
    }
  }

  function Held(loop: Loop): seq<nat> {
    if loop.Holding? then [loop.task] else []
  }

  lemma QueueStep(p: Phase, a: Action, given: seq<nat>, all: seq<nat>)
    requires Enabled(p, a) && given + Held(p.loop) + p.idleTasks == all
    ensures var p' := Effect(p, a); given + AssignmentOf(a) + Held(p'.loop) + p'.idleTasks == all + RequeueOf(a)
  {
    hide Drop;
    if a.TakeTask? {
      assert p.idleTasks == [p.idleTasks[0]] + p.idleTasks[1..];
    }
  }

  lemma OneMoreInOrder(actions: seq<Action>, a: Action)
    ensures Assigned(actions + [a]) == Assigned(actions) + AssignmentOf(a)
    ensures Requeued(actions + [a]) == Requeued(actions) + RequeueOf(a)
  {
    assert (actions + [a])[..|actions|] == actions;
  }

  /** First in, first out: tasks go to workers in numeric order, and after that in the order of their failures. */
  lemma {:induction false} HandedOutInOrder(ntasks: nat, workers: set<Worker>, states: seq<Phase>,
                                            actions: seq<Action>, k: nat)
    requires IsRun(ntasks, workers, states, actions) && k < |states|
    ensures Assigned(actions[..k]) + Held(states[k].loop) + states[k].idleTasks
         == seq(ntasks, i => i) + Requeued(actions[..k])
  {
    if k == 0 {
      assert actions[..0] == [];
    } else {
      hide Assigned, Requeued, Effect, Enabled, Held;
      HandedOutInOrder(ntasks, workers, states, actions, k - 1);
      assert IsStep(states[k - 1], actions[k - 1], states[k]);
      assert actions[..k] == actions[..k - 1] + [actions[k - 1]];
      OneMoreInOrder(actions[..k - 1], actions[k - 1]);
      QueueStep(states[k - 1], actions[k - 1], Assigned(actions[..k - 1]),
                seq(ntasks, i => i) + Requeued(actions[..k - 1]));
    }
  }

  /** A failed `do` always finds room in the buffered queue, so it never blocks. */
  lemma RequeueNeverBlocks(ntasks: nat, workers: set<Worker>, states: seq<Phase>, actions: seq<Action>, k: nat, j: nat)
    requires IsRun(ntasks, workers, states, actions) && k < |states|
    requires j < |states[k].dos| && states[k].dos[j].Requeuing?
    ensures Enabled(states[k], Requeue(j, states[k].dos[j].task))
  {
    RunInv(ntasks, workers, states, actions, k);
  }

  /**
   The phase has returned exactly when there was something to do and every
   task has been counted once; then each task had exactly one successful
   call, and no call is outstanding. With no tasks it never returns.
   */
  lemma ReturnsIffAllCounted(ntasks: nat, workers: set<Worker>, states: seq<Phase>, actions: seq<Action>, k: nat)
    requires IsRun(ntasks, workers, states, actions) && k < |states|
    ensures states[k].loop.Returned? <==> ntasks > 0 && Counted(actions[..k]) == AllTasks(ntasks)
    ensures states[k].loop.Returned? ==>
              Succeeded(actions[..k]) == AllTasks(ntasks) && states[k].dos == [] && states[k].idleTasks == []
  {
    var p, counted, succeeded := states[k], Counted(actions[..k]), Succeeded(actions[..k]);
    RunInv(ntasks, workers, states, actions, k);
    if p.loop.Returned? {
      forall t
        ensures counted[t] == succeeded[t] == AllTasks(ntasks)[t]
      {
        assert TaskOnce(p, succeeded, counted, t);
        InitOnce(ntasks, t);
      }
      assert counted == AllTasks(ntasks) && succeeded == AllTasks(ntasks);
    }
  }

  lemma TwoOfThem(at: Do -> bool, dos: seq<Do>, i: nat, j: nat)
    requires i < j < |dos| && at(dos[i]) && at(dos[j])
    ensures Those(at, dos) >= 2
  {
    Dropped(at, dos, j);
    Present(at, Drop(dos, j), i);
  }

  /** A worker never has two calls outstanding, and one whose call failed is never called again. */
  lemma OneCallPerWorker(ntasks: nat, workers: set<Worker>, states: seq<Phase>, actions: seq<Action>, k: nat,
                         i: nat, j: nat)
    requires IsRun(ntasks, workers, states, actions) && k < |states|
    requires i < |states[k].dos| && states[k].dos[i].Calling?
    requires j < |states[k].dos| && states[k].dos[j].Calling?
    ensures states[k].dos[i].worker == states[k].dos[j].worker ==> i == j
    ensures states[k].dos[i].worker in workers && states[k].dos[i].worker !in Failed(actions[..k])
  {
    hide Those, Totals, TaskOnce;
    var p, w := states[k], states[k].dos[i].worker;
    RunInv(ntasks, workers, states, actions, k);
    assert WorkerOnce(p, workers, Failed(actions[..k]), w);
    Present(UsesWorker(w), p.dos, i);
    if p.dos[j].worker == w && i < j {
      TwoOfThem(UsesWorker(w), p.dos, i, j);
    } else if p.dos[j].worker == w && j < i {
      TwoOfThem(UsesWorker(w), p.dos, j, i);
    }
  }

  /** A phase issues at most one call per task and one more per worker that fails. */
  lemma FewCalls(ntasks: nat, workers: set<Worker>, states: seq<Phase>, actions: seq<Action>)
    requires IsRun(ntasks, workers, states, actions)
    ensures Issued(actions) <= ntasks + |Failed(actions)| <= ntasks + |workers|
  {
    RunInv(ntasks, workers, states, actions, |actions|);
    assert actions[..|actions|] == actions;
    KindsFit(states[|actions|].dos);
  }

  /** No run goes on for ever. */
  lemma RunsAreShort(ntasks: nat, workers: set<Worker>, states: seq<Phase>, actions: seq<Action>)
    requires IsRun(ntasks, workers, states, actions)
    ensures |actions| <= 5 * ntasks + 12 * |workers|
  {
    RunCosts(ntasks, workers, states, actions, |actions|);
    KindsFit(states[|actions|].dos);
  }

  ghost predicate Stuck(p: Phase) {
    forall a :: !Enabled(p, a)
  }

  /** No worker is left and the loop waits for one. */
  ghost predicate OutOfWorkers(p: Phase, workers: set<Worker>, failed: multiset<Worker>) {
    && (forall w :: w in workers ==> w in failed)
    && p.loop.Holding?
    && (forall d :: d in p.dos ==> d.Reporting?)
  }

  /** A step that can happen next. */
  lemma NextStep(p: Phase, workers: set<Worker>, actions: seq<Action>) returns (a: Action)
    requires Inv(p, p.ntasks, workers, actions)
    requires p.ntasks > 0 && !p.loop.Returned? && !OutOfWorkers(p, workers, Failed(actions))
    ensures Enabled(p, a)
  {
    hide Those, TaskOnce, WorkerOnce, Succeeded, Counted, Issued, Failed;
    if p.loop.Holding? && exists w :: w in workers && w !in Failed(actions) {
      var w :| w in workers && w !in Failed(actions);
      a := UseWorker(p, workers, Failed(actions), w);
    } else if j: nat :| j < |p.dos| && !p.dos[j].Reporting? {
      a := match p.dos[j]
        case Calling(t, w) => CallReturns(j, t, w, true)
        case Requeuing(t) => Requeue(j, t);
    } else if p.idleTasks != [] {
      a := TakeTask;
    } else {
      a := Count(0, p.dos[0].task);
    }
  }

  lemma UseWorker(p: Phase, workers: set<Worker>, failed: multiset<Worker>, w: Worker) returns (a: Action)
    requires WorkerOnce(p, workers, failed, w) && w in workers && w !in failed && p.loop.Holding?
    ensures Enabled(p, a)
  {
    if p.forwarder.Some? {
      a := AssignNew(p.loop.task, p.forwarder.value);
    } else if w in p.registered {
      a := Register(w);
    } else if w in p.offering {
      var k :| 0 <= k < |p.offering| && p.offering[k] == w;
      a := AssignIdle(k, p.loop.task, w);
    } else {
      var j := Find(UsesWorker(w), p.dos);
      a := CallReturns(j, p.dos[j].task, w, true);
    }
  }

  lemma NobodyLeft(p: Phase, workers: set<Worker>, failed: multiset<Worker>, w: Worker)
    requires WorkerOnce(p, workers, failed, w) && (w in workers ==> w in failed)
    ensures w !in p.registered && p.forwarder != Some(w) && w !in p.offering
  {
  }

  lemma NothingEnabled(p: Phase, workers: set<Worker>, failed: multiset<Worker>)
    requires forall w :: WorkerOnce(p, workers, failed, w)
    requires OutOfWorkers(p, workers, failed)
    ensures Stuck(p)
  {
    hide WorkerOnce;
    forall a: Action
      ensures !Enabled(p, a)
    {
      match a
      case Register(w) => NobodyLeft(p, workers, failed, w);
      case AssignNew(_, w) => NobodyLeft(p, workers, failed, w);
      case AssignIdle(_, _, w) => NobodyLeft(p, workers, failed, w);
      case CallReturns(k, _, _, _) => assert k < |p.dos| ==> p.dos[k] in p.dos;
      case Requeue(k, _) => assert k < |p.dos| ==> p.dos[k] in p.dos;
      case _ =>
    }
  }

  /** Short of returning, a phase with tasks stops exactly when every worker has failed. */
  lemma StuckIffOutOfWorkers(ntasks: nat, workers: set<Worker>, states: seq<Phase>, actions: seq<Action>, k: nat)
    requires IsRun(ntasks, workers, states, actions) && k < |states|
    requires ntasks > 0 && !states[k].loop.Returned?
    ensures Stuck(states[k]) <==> OutOfWorkers(states[k], workers, Failed(actions[..k]))
  {
    hide Totals, TaskOnce, WorkerOnce, Effect;
    var p, failed := states[k], Failed(actions[..k]);
    RunInv(ntasks, workers, states, actions, k);
    if OutOfWorkers(p, workers, failed) {
      NothingEnabled(p, workers, failed);
    } else {
      var a := NextStep(p, workers, actions[..k]);
    }
  }

  /**
   Every run that has gone as far as it can has returned with every task
   done, provided that there are tasks and one worker has not failed.
   */
  lemma FinishedRunReturns(ntasks: nat, workers: set<Worker>, states: seq<Phase>, actions: seq<Action>, w: Worker)
    requires IsRun(ntasks, workers, states, actions) && Stuck(states[|actions|])
    requires ntasks > 0 && w in workers && w !in Failed(actions)
    ensures states[|actions|].loop.Returned? && Succeeded(actions) == Counted(actions) == AllTasks(ntasks)
  {
    hide Stuck;
    assert actions[..|actions|] == actions;
    ReturnsIffAllCounted(ntasks, workers, states, actions, |actions|);
    if !states[|actions|].loop.Returned? {
      StuckIffOutOfWorkers(ntasks, workers, states, actions, |actions|);
    }
  }
}
