/**
 * The part of the coordination store the distributed lock uses: the
 * children of one lock node, each an ephemeral sequential request named by
 * the parent's counter, plus the watches the lock registers and the wait for
 * a watch to fire.
 *
 * As for the counters, what the environment does to each call comes from a
 * finite script consumed one entry per call; an exhausted script lets every
 * call proceed and never fires a watch again. A create or delete that throws
 * may still have taken effect (a connection lost after the request reached
 * the store leaves the outcome unknown to the caller).
 */
module LockNodes {
  import opened Decimal
  import opened CounterStore

  /** The name of a child of the lock node: decimal digits, parsed by `Long.parseLong`. */
  type RequestName = s: string | IsDigits(s) witness "0"

  /** What the environment does to the next call. */
  datatype LockEvent =
    | Quiet                    // the call runs against the store
    | Fails(error: KeeperError, applied: bool) // the call throws this KeeperException; `applied` says whether a create or delete took effect first
    | Interrupts(applied: bool)                // InterruptedException; `applied` says whether a create or delete took effect first
    | Leaves(name: RequestName) // the owner of this request deletes it (or its session ends) just before the call

  /**
   * The lock node as the store holds it: its children in the order
   * `getChildren` lists them, its sequence counter, the children watched so
   * far, and the script.
   */
  datatype Queue = Queue(children: seq<RequestName>, counter: nat, watched: seq<RequestName>, script: seq<LockEvent>)

  /** How a wait for a watch to fire ends. */
  datatype Wake = Woken | WaitInterrupted | NeverWoken

  /** `children` without `name`. */
  function Without(children: seq<RequestName>, name: string): (r: seq<RequestName>)
    ensures forall c :: c in r <==> c in children && c != name
    ensures |r| <= |children|
  {
    if children == [] then []
    else if children[0] == name then Without(children[1..], name)
    else [children[0]] + Without(children[1..], name)
  }

  /** Takes the next scripted event and applies a departure it announces. */
  function Next(q: Queue): (r: (LockEvent, Queue))
    ensures q.script == [] ==> r == (Quiet, q)
    ensures q.script != [] ==> r.0 == q.script[0] && r.1.script == q.script[1..]
    ensures r.1.counter == q.counter && r.1.watched == q.watched
    ensures !r.0.Leaves? ==> r.1.children == q.children
    ensures r.0.Leaves? ==> r.1.children == Without(q.children, r.0.name)
  {
    if q.script == [] then (Quiet, q)
    else
      var event := q.script[0];
      var children := if event.Leaves? then Without(q.children, event.name) else q.children;
      (event, q.(children := children, script := q.script[1..]))
  }

  /** The queue with the next sequential child added. */
  function Added(q: Queue): (r: Queue)
    ensures r.children == q.children + [SequenceName(q.counter)] && r.counter == q.counter + 1
    ensures r.watched == q.watched && r.script == q.script
  {
    q.(children := q.children + [SequenceName(q.counter)], counter := q.counter + 1)
  }

  /**
   * `create(prefix, data, acl, EPHEMERAL_SEQUENTIAL)`: the new child is named
   * by the counter, and the reply is the prefix followed by that name.
   */
  function CreateRequestSpec(q: Queue, prefix: string): (r: (Reply<string>, Queue))
    ensures r.0.Done? ==> r.0.value == prefix + SequenceName(q.counter)
    ensures r.0.Done? ==> r.1 == Added(Next(q).1)
    ensures q.script == [] ==> r == (Done(prefix + SequenceName(q.counter)), Added(q))
  {
    var (event, q1) := Next(q);
    match event
    case Fails(err, applied) => (Keeper(err), if applied then Added(q1) else q1)
    case Interrupts(applied) => (Interrupted, if applied then Added(q1) else q1)
    case _ => (Done(prefix + SequenceName(q1.counter)), Added(q1))
  }

  /** `getChildren(key, false)`. */
  function GetChildrenSpec(q: Queue): (r: (Reply<seq<RequestName>>, Queue))
    ensures r.1 == Next(q).1
    ensures r.0.Done? ==> r.0.value == r.1.children
    ensures q.script == [] ==> r == (Done(q.children), q)
  {
    var (event, q1) := Next(q);
    match event
    case Fails(err, _) => (Keeper(err), q1)
    case Interrupts(_) => (Interrupted, q1)
    case _ => (Done(q1.children), q1)
  }

  /** `exists(child, watcher)`: whether the child is there; the watch is left on it. */
  function ExistsSpec(q: Queue, name: RequestName): (r: (Reply<bool>, Queue))
    ensures r.1.children == Next(q).1.children && r.1.counter == q.counter
    ensures r.1.script == Next(q).1.script
    ensures r.0.Done? ==> r.0.value == (name in r.1.children) && r.1.watched == q.watched + [name]
    ensures !r.0.Done? ==> r.1.watched == q.watched
    ensures q.script == [] ==> r == (Done(name in q.children), q.(watched := q.watched + [name]))
  {
    var (event, q1) := Next(q);
    match event
    case Fails(err, _) => (Keeper(err), q1)
    case Interrupts(_) => (Interrupted, q1)
    case _ => (Done(name in q1.children), q1.(watched := q1.watched + [name]))
  }

  /** `delete(child, -1)`: removes the child whatever its version. */
  function DeleteSpec(q: Queue, name: string): (r: (Reply<()>, Queue))
    ensures r.1.counter == q.counter && r.1.watched == q.watched && r.1.script == Next(q).1.script
    ensures r.0.Done? ==> name in Next(q).1.children && r.1.children == Without(Next(q).1.children, name)
    ensures q.script == [] ==>
      r == if name in q.children then (Done(()), q.(children := Without(q.children, name)))
           else (Keeper(StateError(NoNode)), q)
  {
    var (event, q1) := Next(q);
    var removed := q1.(children := Without(q1.children, name));
    match event
    case Fails(err, applied) => (Keeper(err), if applied then removed else q1)
    case Interrupts(applied) => (Interrupted, if applied then removed else q1)
    case _ => if name in q1.children then (Done(()), removed) else (Keeper(StateError(NoNode)), q1)
  }

  /**
   * Waiting on the lock's monitor until a watch fires. Any further event
   * wakes the waiter, an interruption ends the wait with an exception, and
   * once the script is exhausted nothing wakes it.
   */
  function WaitSpec(q: Queue): (r: (Wake, Queue))
    ensures q.script == [] <==> r.0.NeverWoken?
    ensures r.1 == Next(q).1
  {
    var (event, q1) := Next(q);
    if q.script == [] then (NeverWoken, q1)
    else if event.Interrupts? then (WaitInterrupted, q1)
    else (Woken, q1)
  }

  /** A store handle, as the lock holds it, seen through one lock node. */
  class LockStore {
    var children: seq<RequestName>
    var counter: nat
    var watched: seq<RequestName>
    var script: seq<LockEvent>

    ghost function State(): Queue
      reads this
    {
      Queue(children, counter, watched, script)
    }

    constructor (children: seq<RequestName>, counter: nat, script: seq<LockEvent>)
      ensures State() == Queue(children, counter, [], script)
    {
      this.children := children;
      this.counter := counter;
      this.watched := [];
      this.script := script;
    }

    /** Takes the next scripted event and lets a departing request go first. */
    method Arrival() returns (event: LockEvent)
      modifies this
      ensures (event, State()) == Next(old(State()))
    {
      event := Quiet;
      if script != [] {
        event := script[0];
        script := script[1..];
        if event.Leaves? {
          children := Without(children, event.name);
        }
      }
    }

    method Create(prefix: string) returns (r: Reply<string>)
      modifies this
      ensures (r, State()) == CreateRequestSpec(old(State()), prefix)
    {
      var event := Arrival();
      if event.Fails? || event.Interrupts? {
        if event.applied {
          children := children + [SequenceName(counter)];
          counter := counter + 1;
        }
        return if event.Fails? then Keeper(event.error) else Interrupted;
      }
      r := Done(prefix + SequenceName(counter));
      children := children + [SequenceName(counter)];
      counter := counter + 1;
    }

    method GetChildren() returns (r: Reply<seq<RequestName>>)
      modifies this
      ensures (r, State()) == GetChildrenSpec(old(State()))
    {
      var event := Arrival();
      if event.Fails? {
        return Keeper(event.error);
      }
      if event.Interrupts? {
        return Interrupted;
      }
      r := Done(children);
    }

    method Exists(name: RequestName) returns (r: Reply<bool>)
      modifies this
      ensures (r, State()) == ExistsSpec(old(State()), name)
    {
      var event := Arrival();
      if event.Fails? {
        return Keeper(event.error);
      }
      if event.Interrupts? {
        return Interrupted;
      }
      watched := watched + [name];
      r := Done(name in children);
    }

    method Delete(name: string) returns (r: Reply<()>)
      modifies this
      ensures (r, State()) == DeleteSpec(old(State()), name)
    {
      var event := Arrival();
      if event.Fails? || event.Interrupts? {
        if event.applied {
          children := Without(children, name);
        }
        return if event.Fails? then Keeper(event.error) else Interrupted;
      }
      if name !in children {
        return Keeper(StateError(NoNode));
      }
      children := Without(children, name);
      r := Done(());
    }

    method Wait() returns (w: Wake)
      modifies this
      ensures (w, State()) == WaitSpec(old(State()))
    {
      if script == [] {
        return NeverWoken;
      }
      var event := Arrival();
      w := if event.Interrupts? then WaitInterrupted else Woken;
    }
  }
}
