/**
 * The main-thread dispatcher (UnityDispatcher): a FIFO queue of actions that
 * other threads fill and the main thread drains to empty on every Update and
 * FixedUpdate.
 *
 * Actions are opaque callbacks. What an action does when it runs is reduced to
 * the actions it enqueues in turn (with InvokeNoDelay), so an action is a
 * finite tree: `Action(id, spawns)`. In simulated-network mode the queue holds
 * a wrapper instead of the action itself; the wrapper either starts the action
 * after a simulated delay (outcome Delayed) or, for a UDP action whose loss was
 * decided, does nothing (outcome Lost).
 */
module Utilities {

  /** A queued callback, identified by `id`; running it enqueues `spawns`, in order. */
  datatype Action = Action(id: nat, spawns: seq<Action>)

  /** One slot of the queue `_actions`. */
  datatype Entry =
    | Plain(action: Action)                            // the action itself
    | Simulated(action: Action, udp: bool, lose: bool) // the latency/loss wrapper around it

  /** What the main thread did with one dequeued entry. */
  datatype Outcome =
    | Ran(action: Action)      // the action was invoked
    | Delayed(action: Action)  // a delayed start of the action was scheduled
    | Lost(action: Action)     // the action was dropped as a lost UDP packet

  /** Handling the first entry of the queue. */
  function OutcomeOf(e: Entry): Outcome
  {
    match e
    case Plain(a) => Ran(a)
    case Simulated(a, udp, lose) => if udp && lose then Lost(a) else Delayed(a)
  }

  function Outcomes(q: seq<Entry>): (r: seq<Outcome>)
    ensures |r| == |q| && forall i :: 0 <= i < |q| ==> r[i] == OutcomeOf(q[i])
  {
    seq(|q|, i requires 0 <= i < |q| => OutcomeOf(q[i]))
  }

  function Plains(s: seq<Action>): (r: seq<Entry>)
    ensures |r| == |s| && forall i :: 0 <= i < |s| ==> r[i] == Plain(s[i])
  {
    seq(|s|, i requires 0 <= i < |s| => Plain(s[i]))
  }

  /** The entries that handling `e` appends to the queue. */
  function Followers(e: Entry): seq<Entry>
  {
    if e.Plain? then Plains(e.action.spawns) else []
  }

  // ---------------------------------------------------------------------------
  // Size of the work a queue stands for; it bounds every drain.

  /** The number of actions `a` stands for: itself and everything it enqueues, transitively. */
  function Size(a: Action): nat
    decreases a, 1, 0
  {
    1 + ChildrenSize(a, 0)
  }

  function ChildrenSize(a: Action, i: nat): nat
    decreases a, 0, |a.spawns| - i
  {
    if i >= |a.spawns| then 0 else Size(a.spawns[i]) + ChildrenSize(a, i + 1)
  }

  function EntrySize(e: Entry): nat
  {
    match e
    case Plain(a) => Size(a)
    case Simulated(_, _, _) => 1
  }

  function QueueSize(q: seq<Entry>): nat
  {
    if q == [] then 0 else EntrySize(q[0]) + QueueSize(q[1..])
  }

  lemma {:induction false} QueueSizeAppend(p: seq<Entry>, q: seq<Entry>)
    ensures QueueSize(p + q) == QueueSize(p) + QueueSize(q)
  {
    if p != [] {
      assert (p + q)[1..] == p[1..] + q;
      QueueSizeAppend(p[1..], q);
    } else {
      assert p + q == q;
    }
  }

  lemma {:induction false} PlainsSize(a: Action, i: nat)
    requires i <= |a.spawns|
    ensures QueueSize(Plains(a.spawns[i..])) == ChildrenSize(a, i)
    decreases |a.spawns| - i
  {
    if i < |a.spawns| {
      assert Plains(a.spawns[i..])[1..] == Plains(a.spawns[i + 1..]);
      PlainsSize(a, i + 1);
    } else {
      assert Plains(a.spawns[i..]) == [];
    }
  }

  /** Handling one entry consumes exactly one unit of the queue's work. */
  lemma StepShrinks(q: seq<Entry>)
    requires q != []
    ensures QueueSize(q[1..] + Followers(q[0])) == QueueSize(q) - 1
  {
    QueueSizeAppend(q[1..], Followers(q[0]));
    if q[0].Plain? {
      PlainsSize(q[0].action, 0);
      assert q[0].action.spawns[0..] == q[0].action.spawns;
    }
  }

  // ---------------------------------------------------------------------------
  // The specification of one drain.

  /**
   * What CheckInvokables does with queue `q`: it handles the front entry, the
   * entries that handling appends go to the back, and it goes on until the
   * queue is empty. Every queued action and every action enqueued during the
   * drain is handled exactly once.
   */
  function Drain(q: seq<Entry>): (trace: seq<Outcome>)
    ensures |trace| == QueueSize(q)
    decreases QueueSize(q)
  {
    if q == [] then []
    else
      StepShrinks(q);
      [OutcomeOf(q[0])] + Drain(q[1..] + Followers(q[0]))
  }

  lemma {:induction false} QueueSizeAtLeastLength(q: seq<Entry>)
    ensures QueueSize(q) >= |q|
  {
    if q != [] {
      QueueSizeAtLeastLength(q[1..]);
    }
  }

  /** FIFO: the entries queued when the drain starts are handled first, in queue order. */
  lemma {:induction false} DrainHandlesQueueFirst(q: seq<Entry>)
    ensures |Drain(q)| >= |q|
    ensures Drain(q)[..|q|] == Outcomes(q)
    decreases QueueSize(q)
  {
    QueueSizeAtLeastLength(q);
    if q != [] {
      var rest := q[1..] + Followers(q[0]);
      StepShrinks(q);
      DrainHandlesQueueFirst(rest);
      assert Drain(q) == [OutcomeOf(q[0])] + Drain(rest);
      assert Drain(rest)[..|q| - 1] == Outcomes(rest)[..|q| - 1];
      assert Outcomes(rest)[..|q| - 1] == Outcomes(q[1..]);
    }
  }

  /**
   * Re-entrant enqueue: the actions that the front action enqueues while it
   * runs are handled in the same drain, right after everything that was
   * already queued.
   */
  lemma DrainRunsSpawnedAfterQueued(q: seq<Entry>)
    requires q != [] && q[0].Plain?
    ensures |Drain(q)| >= |q| + |q[0].action.spawns|
    ensures forall k :: 0 <= k < |q[0].action.spawns| ==> Drain(q)[|q| + k] == Ran(q[0].action.spawns[k])
  {
    var sp := q[0].action.spawns;
    var rest := q[1..] + Plains(sp);
    DrainHandlesQueueFirst(rest);
    assert Drain(q) == [Ran(q[0].action)] + Drain(rest);
    forall k | 0 <= k < |sp|
      ensures Drain(q)[|q| + k] == Ran(sp[k])
    {
      assert Drain(q)[|q| + k] == Drain(rest)[|q| - 1 + k];
      assert Drain(rest)[..|rest|][|q| - 1 + k] == Outcomes(rest)[|q| - 1 + k];
      assert rest[|q| - 1 + k] == Plain(sp[k]);
    }
  }

  /** The actions a trace dropped as lost UDP packets, in order. */
  function LostActions(trace: seq<Outcome>): seq<Action>
  {
    if trace == [] then []
    else (if trace[0].Lost? then [trace[0].action] else []) + LostActions(trace[1..])
  }

  /** The actions of the queued wrappers for a UDP packet whose loss was decided, in order. */
  function LossyActions(q: seq<Entry>): seq<Action>
  {
    if q == [] then []
    else (if q[0].Simulated? && q[0].udp && q[0].lose then [q[0].action] else []) + LossyActions(q[1..])
  }

  lemma {:induction false} LostActionsAppend(s: seq<Outcome>, t: seq<Outcome>)
    ensures LostActions(s + t) == LostActions(s) + LostActions(t)
  {
    if s != [] {
      assert (s + t)[1..] == s[1..] + t;
      LostActionsAppend(s[1..], t);
    } else {
      assert s + t == t;
    }
  }

  lemma {:induction false} LossyActionsAppend(p: seq<Entry>, q: seq<Entry>)
    ensures LossyActions(p + q) == LossyActions(p) + LossyActions(q)
  {
    if p != [] {
      assert (p + q)[1..] == p[1..] + q;
      LossyActionsAppend(p[1..], q);
    } else {
      assert p + q == q;
    }
  }

  lemma {:induction false} PlainsNotLossy(s: seq<Action>)
    ensures LossyActions(Plains(s)) == []
  {
    if s != [] {
      assert Plains(s)[1..] == Plains(s[1..]);
      PlainsNotLossy(s[1..]);
    }
  }

  /**
   * Loss: a drain drops exactly the UDP actions whose loss was decided, in
   * queue order; every other action, a non-UDP one in simulated mode included,
   * is run or scheduled, never dropped.
   */
  lemma {:induction false} DrainLosesExactlyLossy(q: seq<Entry>)
    ensures LostActions(Drain(q)) == LossyActions(q)
    decreases QueueSize(q)
  {
    if q != [] {
      var rest := q[1..] + Followers(q[0]);
      StepShrinks(q);
      DrainLosesExactlyLossy(rest);
      LostActionsAppend([OutcomeOf(q[0])], Drain(rest));
      LossyActionsAppend(q[1..], Followers(q[0]));
      if q[0].Plain? {
        PlainsNotLossy(q[0].action.spawns);
      }
      assert LossyActions(rest) == LossyActions(q[1..]);
    }
  }

  /** The actions of tree `a`: `a` itself and everything it enqueues, transitively. */
  function Tree(a: Action): multiset<Action>
    decreases a, 1, 0
  {
    multiset{a} + Forest(a, 0)
  }

  /** The actions of the trees `a.spawns[i..]`. */
  function Forest(a: Action, i: nat): multiset<Action>
    decreases a, 0, |a.spawns| - i
  {
    if i >= |a.spawns| then multiset{} else Tree(a.spawns[i]) + Forest(a, i + 1)
  }

  /**
   * The actions queue `q` stands for: a plain action with everything it will
   * enqueue, and the bare action of a simulated wrapper, which enqueues nothing
   * within the drain.
   */
  function QueueActions(q: seq<Entry>): multiset<Action>
  {
    if q == [] then multiset{}
    else (if q[0].Plain? then Tree(q[0].action) else multiset{q[0].action}) + QueueActions(q[1..])
  }

  /** The actions a trace handled, whatever the outcome. */
  function Handled(trace: seq<Outcome>): multiset<Action>
  {
    if trace == [] then multiset{} else multiset{trace[0].action} + Handled(trace[1..])
  }

  lemma {:induction false} QueueActionsAppend(p: seq<Entry>, q: seq<Entry>)
    ensures QueueActions(p + q) == QueueActions(p) + QueueActions(q)
  {
    if p != [] {
      assert (p + q)[1..] == p[1..] + q;
      QueueActionsAppend(p[1..], q);
    } else {
      assert p + q == q;
    }
  }

  lemma {:induction false} PlainsActions(a: Action, i: nat)
    requires i <= |a.spawns|
    ensures QueueActions(Plains(a.spawns[i..])) == Forest(a, i)
    decreases |a.spawns| - i
  {
    if i < |a.spawns| {
      assert Plains(a.spawns[i..])[1..] == Plains(a.spawns[i + 1..]);
      PlainsActions(a, i + 1);
    } else {
      assert Plains(a.spawns[i..]) == [];
    }
  }

  /**
   * Exactly once: a drain handles every queued action and every action
   * enqueued during the drain, each as often as it stands in the queue's
   * trees, and nothing else.
   */
  lemma {:induction false} DrainHandlesEachOnce(q: seq<Entry>)
    ensures Handled(Drain(q)) == QueueActions(q)
    decreases QueueSize(q)
  {
    if q != [] {
      var rest := q[1..] + Followers(q[0]);
      StepShrinks(q);
      DrainHandlesEachOnce(rest);
      assert Drain(q) == [OutcomeOf(q[0])] + Drain(rest);
      assert Handled(Drain(q)) == multiset{q[0].action} + Handled(Drain(rest));
      QueueActionsAppend(q[1..], Followers(q[0]));
      if q[0].Plain? {
        PlainsActions(q[0].action, 0);
        assert q[0].action.spawns[0..] == q[0].action.spawns;
      }
    }
  }

  // ---------------------------------------------------------------------------
  // The dispatcher object.

  class Dispatcher {
    /** NetworkUtils.SimulateUdpNetworkConditions */
    const simulate: bool
    /** The queue `_actions`, front first. */
    var actions: seq<Entry>

    constructor (simulate: bool)
      ensures this.simulate == simulate && actions == []
    {
      this.simulate := simulate;
      actions := [];
    }

    /** Appends `action` at the back of the queue. */
    method InvokeNoDelay(action: Action)
      modifies this`actions
      ensures actions == old(actions) + [Plain(action)]
    {
      actions := actions + [Plain(action)];
    }

    /**
     * Queues the handling of a received packet. With simulation off this is
     * InvokeNoDelay; with it on, the latency/loss wrapper is queued instead.
     * Whether the packet is to be lost is the input `lose`.
     */
    method InvokePacketHandling(udp: bool, action: Action, lose: bool)
      modifies this`actions
      ensures !simulate ==> actions == old(actions) + [Plain(action)]
      ensures simulate ==> actions == old(actions) + [Simulated(action, udp, lose)]
    {
      if simulate {
        actions := actions + [Simulated(action, udp, lose)];
      } else {
        actions := actions + [Plain(action)];
      }
    }

    /** Handles one dequeued entry; the action runs outside the queue's lock and may enqueue more. */
    method Run(e: Entry) returns (outcome: Outcome)
      modifies this`actions
      ensures outcome == OutcomeOf(e)
      ensures actions == old(actions) + Followers(e)
    {
      match e
      case Plain(a) =>
        outcome := Ran(a);
        for i := 0 to |a.spawns|
          invariant actions == old(actions) + Plains(a.spawns[..i])
        {
          assert Plains(a.spawns[..i + 1]) == Plains(a.spawns[..i]) + [Plain(a.spawns[i])];
          InvokeNoDelay(a.spawns[i]);
        }
        assert a.spawns[..|a.spawns|] == a.spawns;
      case Simulated(a, udp, lose) =>
        if !udp || !lose {
          outcome := Delayed(a);
        } else {
          outcome := Lost(a);
        }
    }

    /** Dequeues and handles entries until the queue is empty. */
    method CheckInvokables() returns (trace: seq<Outcome>)
      modifies this`actions
      ensures actions == []
      ensures trace == Drain(old(actions))
    {
      trace := [];
      while true
        invariant trace + Drain(actions) == Drain(old(actions))
        decreases QueueSize(actions)
      {
        if |actions| == 0 {
          return;
        }
        var e := actions[0];
        ghost var before := actions;
        actions := actions[1..];
        var outcome := Run(e);
        StepShrinks(before);
        assert Drain(before) == [outcome] + Drain(actions);
        trace := trace + [outcome];
      }
    }

    /** The per-frame drain point. */
    method Update() returns (trace: seq<Outcome>)
      modifies this`actions
      ensures actions == [] && trace == Drain(old(actions))
    {
      trace := CheckInvokables();
    }

    /** The per-physics-step drain point. */
    method FixedUpdate() returns (trace: seq<Outcome>)
      modifies this`actions
      ensures actions == [] && trace == Drain(old(actions))
    {
      trace := CheckInvokables();
    }
  }
}
