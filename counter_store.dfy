/**
 * The part of the coordination store the sequence clocks use: persistent
 * nodes addressed by path, each holding a payload and a version, with
 * `getData`, a version-conditioned `setData` and `create`.
 *
 * Everything the environment does to a call (a thrown KeeperException, an
 * interruption, another client getting in first) comes from a finite script
 * consumed one entry per call, as the mock-driven tests script their mocks.
 * An exhausted script lets every call proceed. A write or create that throws
 * may still have taken effect (a connection lost after the request reached
 * the store leaves the outcome unknown to the caller); a read has nothing
 * to apply.
 */
module CounterStore {
  import opened LongCodec

  type Path = string

  /** A persistent node: its payload and the version that conditions writes. */
  datatype Node = Node(data: seq<Byte>, version: nat)

  /** The `KeeperException.Code`s the clocks tell apart; every other code is `OtherCode`. */
  datatype Code = NoNode | NodeExists | BadVersion | ConnectionLoss | SessionExpired | OtherCode(name: string)

  /** One thrown KeeperException; `tag` tells apart two exceptions with the same code. */
  datatype KeeperError = KeeperError(code: Code, tag: nat)

  /** What the environment does to the next store call. */
  datatype Interference =
    | Proceed                 // the call runs against the store
    | Fail(error: KeeperError, applied: bool) // the call throws this KeeperException; `applied` says whether a write or create took effect first
    | Interrupt(applied: bool)                // InterruptedException; `applied` says whether a write or create took effect first
    | Raced                   // another client completes one increment of the path just before the call

  /** The result of a store call: a value, a KeeperException, or an InterruptedException. */
  datatype Reply<+T> = Done(value: T) | Keeper(error: KeeperError) | Interrupted

  /** The store's nodes and what the environment has left to do. */
  datatype Env = Env(nodes: map<Path, Node>, script: seq<Interference>)

  /** Errors that come from the store's own state rather than the script carry tag 0. */
  function StateError(code: Code): KeeperError {
    KeeperError(code, 0)
  }

  /** The next scripted interference, and the rest of the script. */
  function Pop(script: seq<Interference>): (r: (Interference, seq<Interference>))
    ensures script == [] ==> r == (Proceed, [])
    ensures script != [] ==> r == (script[0], script[1..])
  {
    if script == [] then (Proceed, []) else (script[0], script[1..])
  }

  /**
   * Another client runs the clock protocol once on `path`: it creates a
   * missing node and writes 0, or rewrites the first 8 bytes of an existing
   * node with the next value. A payload too short to decode stops it.
   */
  function RivalIncrement(nodes: map<Path, Node>, path: Path): (r: map<Path, Node>)
    ensures r.Keys == nodes.Keys + {path}
  {
    if path !in nodes then
      nodes[path := Node(EncodeLong(0), 1)]
    else if |nodes[path].data| < 8 then
      nodes
    else
      var n := nodes[path];
      nodes[path := Node(Bumped(n.data), n.version + 1)]
  }

  /** The nodes as the call sees them, after any rival got in first. */
  function Arrive(nodes: map<Path, Node>, i: Interference, path: Path): map<Path, Node> {
    if i.Raced? then RivalIncrement(nodes, path) else nodes
  }

  /** A call consumes the head of the script, if any, and never removes a node. */
  ghost predicate Step(e: Env, e': Env) {
    && e.nodes.Keys <= e'.nodes.Keys
    && e'.script == (if e.script == [] then [] else e.script[1..])
  }

  /** `getData(path, false, stat)`. */
  function GetDataSpec(e: Env, path: Path): (r: (Reply<Node>, Env))
    ensures Step(e, r.1)
    ensures e.script == [] ==> r.1 == e
    ensures e.script == [] ==> r.0 == if path in e.nodes then Done(e.nodes[path]) else Keeper(StateError(NoNode))
  {
    var (i, rest) := Pop(e.script);
    var nodes := Arrive(e.nodes, i, path);
    var after := Env(nodes, rest);
    match i
    case Fail(err, _) => (Keeper(err), after)
    case Interrupt(_) => (Interrupted, after)
    case _ =>
      if path in nodes then (Done(nodes[path]), after)
      else (Keeper(StateError(NoNode)), after)
  }

  /** The store's answer to `setData(path, data, version)` with nothing in the way. */
  function Write(nodes: map<Path, Node>, path: Path, data: seq<Byte>, version: nat): (r: (Reply<()>, map<Path, Node>))
    ensures r.1.Keys == nodes.Keys
  {
    if path !in nodes then (Keeper(StateError(NoNode)), nodes)
    else if nodes[path].version != version then (Keeper(StateError(BadVersion)), nodes)
    else (Done(()), nodes[path := Node(data, version + 1)])
  }

  /** `setData(path, data, version)`: written only if the node still has `version`. */
  function SetDataSpec(e: Env, path: Path, data: seq<Byte>, version: nat): (r: (Reply<()>, Env))
    ensures Step(e, r.1)
    ensures e.script == [] ==> (r.0, r.1.nodes) == Write(e.nodes, path, data, version)
  {
    var (i, rest) := Pop(e.script);
    var nodes := Arrive(e.nodes, i, path);
    var (reply, written) := Write(nodes, path, data, version);
    match i
    case Fail(err, applied) => (Keeper(err), Env(if applied then written else nodes, rest))
    case Interrupt(applied) => (Interrupted, Env(if applied then written else nodes, rest))
    case _ => (reply, Env(written, rest))
  }

  /** The store's answer to a persistent `create(path, data, ...)` with nothing in the way. */
  function Make(nodes: map<Path, Node>, path: Path, data: seq<Byte>): (r: (Reply<()>, map<Path, Node>))
    ensures r.1.Keys == nodes.Keys + {path}
  {
    if path in nodes then (Keeper(StateError(NodeExists)), nodes)
    else (Done(()), nodes[path := Node(data, 0)])
  }

  /** `create(path, data, acl, PERSISTENT)`. */
  function CreateSpec(e: Env, path: Path, data: seq<Byte>): (r: (Reply<()>, Env))
    ensures Step(e, r.1)
    ensures e.script == [] ==> (r.0, r.1.nodes) == Make(e.nodes, path, data)
  {
    var (i, rest) := Pop(e.script);
    var nodes := Arrive(e.nodes, i, path);
    var (reply, made) := Make(nodes, path, data);
    match i
    case Fail(err, applied) => (Keeper(err), Env(if applied then made else nodes, rest))
    case Interrupt(applied) => (Interrupted, Env(if applied then made else nodes, rest))
    case _ => (reply, Env(made, rest))
  }

  /** A store handle, as the clocks hold it. */
  class Store {
    var nodes: map<Path, Node>
    var script: seq<Interference>

    ghost function State(): Env
      reads this
    {
      Env(nodes, script)
    }

    constructor (nodes: map<Path, Node>, script: seq<Interference>)
      ensures State() == Env(nodes, script)
    {
      this.nodes := nodes;
      this.script := script;
    }

    /** Takes the next scripted interference and lets any rival in first. */
    method Arrival(path: Path) returns (i: Interference)
      modifies this
      ensures (i, script) == Pop(old(script))
      ensures nodes == Arrive(old(nodes), i, path)
    {
      i := Proceed;
      if script != [] {
        i := script[0];
        script := script[1..];
      }
      if i.Raced? {
        nodes := RivalIncrement(nodes, path);
      }
    }

    method GetData(path: Path) returns (r: Reply<Node>)
      modifies this
      ensures (r, State()) == GetDataSpec(old(State()), path)
    {
      var i := Arrival(path);
      if i.Fail? {
        r := Keeper(i.error);
      } else if i.Interrupt? {
        r := Interrupted;
      } else if path in nodes {
        r := Done(nodes[path]);
      } else {
        r := Keeper(StateError(NoNode));
      }
    }

    method SetData(path: Path, data: seq<Byte>, version: nat) returns (r: Reply<()>)
      modifies this
      ensures (r, State()) == SetDataSpec(old(State()), path, data, version)
    {
      var i := Arrival(path);
      if i.Fail? || i.Interrupt? {
        r := if i.Fail? then Keeper(i.error) else Interrupted;
        if i.applied && path in nodes && nodes[path].version == version {
          nodes := nodes[path := Node(data, version + 1)];
        }
      } else if path !in nodes {
        r := Keeper(StateError(NoNode));
      } else if nodes[path].version != version {
        r := Keeper(StateError(BadVersion));
      } else {
        r := Done(());
        nodes := nodes[path := Node(data, version + 1)];
      }
    }

    method Create(path: Path, data: seq<Byte>) returns (r: Reply<()>)
      modifies this
      ensures (r, State()) == CreateSpec(old(State()), path, data)
    {
      var i := Arrival(path);
      if i.Fail? || i.Interrupt? {
        r := if i.Fail? then Keeper(i.error) else Interrupted;
        if i.applied && path !in nodes {
          nodes := nodes[path := Node(data, 0)];
        }
      } else if path in nodes {
        r := Keeper(StateError(NodeExists));
      } else {
        r := Done(());
        nodes := nodes[path := Node(data, 0)];
      }
    }
  }
}
