/**
  One supervised unit as a state machine: state.json, the pid.json tombstone, the supervisor's
  reconcile pass with the launch handshake inside it, the gated children, and the operator.

  A reconcile pass holds the unit lock from `Begin` until it is `Idle` again.  Desired-state
  changes, heartbeats, direct stops and child steps may come between any two of its steps;
  operator clearance needs the lock.
*/
module Launch {
  import opened Wrappers
  import Gate

  // ---------------------------------------------------------------------
  // state.json
  // ---------------------------------------------------------------------

  /** A JSON value; a token is a uuid4, and booleans are integers to the host language. */
  datatype Value = Num(n: int) | Flag(b: bool) | Text(s: string) | Token(t: nat) | Null

  /** The keys of a state or of a heartbeat: the ones the reconciler writes, and any other. */
  datatype Key =
    | SchemaVersion | Unit | Desired | Actual | Generation | Pid
    | DegradedReason | VerificationRequired | StopNoted | ProcessToken
    | Other(name: string)

  type Dict = map<Key, Value>

  /** The six keys the reconciler owns. */
  predicate IsCore(k: Key) {
    k.SchemaVersion? || k.Unit? || k.Desired? || k.Actual? || k.Generation? || k.Pid?
  }

  /** The two dictionaries have the same core keys with the same values. */
  ghost predicate SameCore(d: Dict, e: Dict) {
    forall k :: IsCore(k) ==> (k in d <==> k in e) && (k in d ==> d[k] == e[k])
  }

  const ENABLED := Text("enabled")
  const DISABLED := Text("disabled")
  const PAUSED := Text("paused")
  const RUNNING := Text("running")
  const STOPPED := Text("stopped")
  const UNKNOWN := Text("unknown")

  function DefaultState(schema: int, unit: string): Dict {
    map[SchemaVersion := Num(schema), Unit := Text(unit), Desired := DISABLED, Actual := UNKNOWN, Generation := Num(0), Pid := Null]
  }

  /** What the file holds over the defaults, under the unit's own name. */
  function Backfilled(schema: int, unit: string, stored: Dict): Dict {
    (DefaultState(schema, unit) + stored)[Unit := Text(unit)]
  }

  function Get(d: Dict, k: Key): Value {
    if k in d then d[k] else Null
  }

  /** An integer as the host language takes it, a boolean counting as zero or one. */
  function IntOf(v: Value): Option<int> {
    match v
    case Num(n) => Some(n)
    case Flag(b) => Some(if b then 1 else 0)
    case _ => None
  }

  function GenerationOf(d: Dict): int {
    var n := IntOf(Get(d, Generation));
    if n.Some? then n.value else 0
  }

  /** Default policy: run iff enabled or paused. */
  predicate HonorDesired(d: Dict) {
    Get(d, Desired) == ENABLED || Get(d, Desired) == PAUSED
  }

  predicate Accepts(s: Dict, heartbeat: Dict) {
    IntOf(Get(heartbeat, Generation)) == Some(GenerationOf(s))
  }

  /** The state to save for a heartbeat, or None when the fence turns it away. */
  function MergeHeartbeat(s: Dict, heartbeat: Dict): Option<Dict> {
    if Accepts(s, heartbeat) then Some(s + (map k | k in heartbeat && !IsCore(k) :: heartbeat[k])) else None
  }

  // ---------------------------------------------------------------------
  // pid.json, children, the supervisor
  // ---------------------------------------------------------------------

  /** Garbled is a created but not yet written file. */
  datatype PidFile =
    | Absent
    | Garbled
    | Present(pid: Option<int>, generation: int, token: nat, stopRequested: bool)

  datatype GateState = Booting | Reading(ack: string) | Running | Gone

  /** `ready` says READY was written, `inbox` holds the bytes sent and not yet read, `closed` that
      the parent's end is closed, and `execd` remembers that the consumer ran. */
  datatype Child = Child(pid: int, generation: int, epoch: nat, gate: GateState, ready: bool, inbox: string, closed: bool, execd: bool)
  {
    /** Everything the parent sent to a gate that has not decided yet. */
    function Sent(): string {
      if gate.Reading? then gate.ack + inbox
      else if gate.Booting? then inbox
      else ""
    }
  }

  datatype Phase =
    | Idle
    | Stopping
    | SavingBlocked
    | SavingStopped
    | Fencing(token: nat)
    | SavingRefused
    | Writing(token: nat)
    | Starting(token: nat)
    | Awaiting(token: nat)
    | Persisting(token: nat)
    | Owning(token: nat)
    | Acking(token: nat, sent: nat)
    | Probing(token: nat)
    | SavingLaunch(token: nat, pid: int, alive: bool, owned: bool)

  datatype Act = Spawned | Noop
  datatype Outcome = Outcome(act: Act, desired: Value, actual: Value, generation: int, pid: Option<int>, alive: bool, degraded: bool)

  /**
    `disk` is the object in state.json, empty while there is no readable file; `loaded` is the
    dictionary a pass works on; `epoch` counts clearances; `stamps` lists
    the generations written into tombstones, `persisted` the tokens whose pid was recorded;
    `lost` says a stamped launch has ended without its state being saved.
  */
  datatype World = World(
    schema: int, unit: string, pidFile: PidFile, disk: Dict, phase: Phase, loaded: Dict, handles: set<nat>,
    children: map<nat, Child>, epoch: nat, nextToken: nat,
    stamps: seq<int>, outcomes: seq<Outcome>, persisted: set<nat>, lost: bool)
  {
    /** The state as every reader sees it. */
    function State(): Dict {
      Backfilled(schema, unit, disk)
    }
  }

  /** `Clear` pops the handle when the operator acts inside the supervisor's own process (`here`). */
  datatype Action =
    | SetDesired(desired: string)
    | Heartbeat(payload: Dict)
    | DirectStop
    | Begin
    | Tick(bytes: nat, pid: int)
    | Fail
    | Die
    | ChildReady(token: nat)
    | ChildRead(token: nat, bytes: nat)
    | ChildEof(token: nat)
    | ChildEnd(token: nat)
    | Clear(generation: int, token: nat, here: bool)

  /** The token of the launch in progress, once its child exists or is about to. */
  function Launching(ph: Phase): Option<nat> {
    match ph
    case Writing(k) => Some(k)
    case Starting(k) => Some(k)
    case Awaiting(k) => Some(k)
    case Persisting(k) => Some(k)
    case Owning(k) => Some(k)
    case Acking(k, _) => Some(k)
    case Probing(k) => Some(k)
    case SavingLaunch(k, _, _, _) => Some(k)
    case _ => None
  }

  /** A tombstone with a generation has been written and the state does not say so yet. */
  predicate Stamped(ph: Phase) {
    Launching(ph).Some? && !ph.Writing?
  }

  // ---------------------------------------------------------------------
  // Enabledness
  // ---------------------------------------------------------------------

  predicate Possible(w: World, a: Action) {
    match a
    case Begin => w.phase.Idle?
    case Tick(bytes, _) => TickEnabled(w, bytes)
    case Fail => !w.phase.Idle?
    case ChildReady(k) => k in w.children && w.children[k].gate.Booting?
    case ChildRead(k, n) =>
      k in w.children && w.children[k].gate.Reading? && 0 < n <= |w.children[k].inbox| && n <= Gate.READ_SIZE
    case ChildEof(k) =>
      k in w.children && w.children[k].gate.Reading? && w.children[k].inbox == "" && w.children[k].closed
    case ChildEnd(k) => k in w.children && !w.children[k].gate.Gone?
    case Clear(generation, token, _) =>
      w.phase.Idle? && w.pidFile.Present? && w.pidFile.generation == generation && w.pidFile.token == token
    case _ => true
  }

  /** A receive returns once there is something to return; a send transfers at least a byte. */
  predicate TickEnabled(w: World, bytes: nat) {
    match w.phase
    case Idle => false
    case Awaiting(k) => k in w.children && if w.children[k].ready then 1 <= bytes <= 6 else w.children[k].gate.Gone?
    case Acking(k, sent) => k in w.children && 0 < bytes <= |Gate.ACK| - sent
    case Persisting(k) => k in w.children
    case Probing(k) => k in w.children
    case _ => true
  }

  // ---------------------------------------------------------------------
  // The actions
  // ---------------------------------------------------------------------

  function Apply(policy: Dict -> bool, w: World, a: Action): World {
    if !Possible(w, a) then w
    else
      match a
      case SetDesired(d) => if Text(d) in {ENABLED, DISABLED, PAUSED} then w.(disk := w.State()[Desired := Text(d)]) else w
      case Heartbeat(payload) =>
        var merged := MergeHeartbeat(w.State(), payload);
        if merged.Some? then w.(disk := merged.value) else w
      case DirectStop => Stop(w).0
      case Begin => BeginPass(policy, w)
      case Tick(bytes, pid) => TickStep(w, bytes, pid)
      case Fail => Abandon(w)
      case Die => Abandon(w).(handles := {})
      case ChildReady(k) => w.(children := w.children[k := w.children[k].(gate := Reading(""), ready := true)])
      case ChildRead(k, n) => w.(children := w.children[k := ReadChild(w.children[k], n)])
      case ChildEof(k) => w.(children := w.children[k := w.children[k].(gate := Gone)])
      case ChildEnd(k) => w.(children := w.children[k := w.children[k].(gate := Gone)])
      case Clear(_, k, here) => w.(pidFile := Absent, epoch := w.epoch + 1, handles := if here then w.handles - {k} else w.handles)
  }

  /** Begin a pass: load the state and observe the tombstone, never the process. */
  function BeginPass(policy: Dict -> bool, w: World): World {
    var wanted := policy(w.State());
    if w.pidFile != Absent then
      w.(phase := if wanted then SavingBlocked else Stopping, loaded := Blocked(w.State()))
    else if wanted then
      w.(phase := Fencing(w.nextToken), nextToken := w.nextToken + 1, loaded := w.State()[Actual := STOPPED])
    else
      w.(phase := SavingStopped, loaded := w.State()[Actual := STOPPED])
  }

  const REASON := Text("process_tombstone_operator_verification_required")
  const EXITED := Text("leader_exited_operator_verification_required")

  function Blocked(s: Dict): Dict {
    s[Actual := RUNNING][DegradedReason := REASON][VerificationRequired := Flag(true)]
  }

  /** The stop request: a TERM through an owned live handle, and a note in the tombstone. */
  function Stop(w: World): (World, bool) {
    if !w.pidFile.Present? then (w, false)
    else
      var k := w.pidFile.token;
      var owned := k in w.handles && k in w.children;
      var signalled := owned && w.pidFile.pid == Some(w.children[k].pid) && !w.children[k].gate.Gone?;
      (w.(pidFile := w.pidFile.(stopRequested := true),
          handles := if owned && !signalled then w.handles - {k} else w.handles),
       signalled)
  }

  /** A pass that ends early releases the lock and closes the channel of a child it started. */
  function Abandon(w: World): World {
    CloseChannel(w, Launching(w.phase)).(phase := Idle, lost := w.lost || Stamped(w.phase))
  }

  function CloseChannel(w: World, k: Option<nat>): World {
    if k.Some? && k.value in w.children
    then w.(children := w.children[k.value := w.children[k.value].(closed := true)])
    else w
  }

  function ReadChild(c: Child, n: nat): Child
    requires c.gate.Reading? && n <= |c.inbox|
  {
    var c' := c.(inbox := c.inbox[n..]);
    match Gate.Receive(c.gate.ack, c.inbox[..n])
    case Waits(ack) => c'.(gate := Reading(ack))
    case Execs => c'.(gate := Running, execd := true)
    case Exits => c'.(gate := Gone)
  }

  /** The generation a launch of this pass carries. */
  function NextGeneration(w: World): int {
    GenerationOf(w.loaded) + 1
  }

  function TickStep(w: World, bytes: nat, pid: int): World
    requires TickEnabled(w, bytes)
  {
    match w.phase
    case Idle => w
    case Stopping =>
      var (w', signalled) := Stop(w);
      w'.(phase := SavingBlocked, loaded := if signalled then w.loaded[StopNoted := Flag(true)] else w.loaded)
    case SavingBlocked => Finish(w, w.loaded, Noop, IntOf(Get(w.loaded, Pid)), true, true)
    case SavingStopped => Finish(w, w.loaded, Noop, None, false, false)
    case SavingRefused => Finish(w, Refused(w.loaded), Noop, None, false, true)
    case Fencing(k) =>
      if w.pidFile.Absent? then w.(pidFile := Garbled, phase := Writing(k)) else w.(phase := SavingRefused)
    case Writing(k) =>
      w.(pidFile := Present(None, NextGeneration(w), k, false), phase := Starting(k), stamps := w.stamps + [NextGeneration(w)])
    case Starting(k) =>
      w.(children := w.children[k := Child(pid, NextGeneration(w), w.epoch, Booting, false, "", false, false)], phase := Awaiting(k))
    case Awaiting(k) =>
      if w.children[k].ready && bytes == 6 then w.(phase := Persisting(k))
      else CloseChannel(w, Some(k)).(phase := SavingLaunch(k, w.children[k].pid, false, false))
    case Persisting(k) =>
      w.(pidFile := Present(Some(w.children[k].pid), NextGeneration(w), k, false), phase := Owning(k),
         persisted := w.persisted + {k})
    case Owning(k) => w.(handles := w.handles + {k}, phase := Acking(k, 0))
    case Acking(k, sent) => Acknowledged(w, k, sent, bytes)
    case Probing(k) =>
      if w.children[k].gate.Gone?
      then w.(handles := w.handles - {k}, phase := SavingLaunch(k, w.children[k].pid, false, true))
      else w.(phase := SavingLaunch(k, w.children[k].pid, true, true))
    case SavingLaunch(k, p, alive, owned) => Reported(w, k, p, alive, owned)
  }

  /** Some more of the acknowledgement is sent; after the last of it the parent closes its end. */
  function Acknowledged(w: World, k: nat, sent: nat, bytes: nat): World
    requires k in w.children && sent + bytes <= |Gate.ACK|
  {
    var w' := w.(children := w.children[k := w.children[k].(inbox := w.children[k].inbox + Gate.ACK[sent..sent + bytes])]);
    if sent + bytes == |Gate.ACK| then CloseChannel(w', Some(k)).(phase := Probing(k))
    else w'.(phase := Acking(k, sent + bytes))
  }

  function Reported(w: World, k: nat, pid: int, alive: bool, owned: bool): World {
    Finish(w.(lost := false), Launched(w.loaded, NextGeneration(w), k, pid, alive, owned), Spawned, Some(pid), alive, !alive)
  }

  function Refused(s: Dict): Dict {
    s[Actual := UNKNOWN][DegradedReason := REASON][VerificationRequired := Flag(true)]
  }

  function Launched(s: Dict, generation: int, token: nat, pid: int, alive: bool, owned: bool): Dict {
    var s := s[Generation := Num(generation)][Pid := Num(pid)][Actual := if alive then RUNNING else UNKNOWN]
              [ProcessToken := if owned then Token(token) else Null][VerificationRequired := Flag(!alive)];
    if alive then s else s[DegradedReason := EXITED]
  }

  /** Save the state and report. */
  function Finish(w: World, s: Dict, act: Act, pid: Option<int>, alive: bool, degraded: bool): World {
    w.(disk := s, phase := Idle,
       outcomes := w.outcomes + [Outcome(act, Get(s, Desired), Get(s, Actual), GenerationOf(s), pid, alive, degraded)])
  }

  function Run(policy: Dict -> bool, w: World, actions: seq<Action>): World {
    if actions == [] then w
    else Apply(policy, Run(policy, w, actions[..|actions| - 1]), actions[|actions| - 1])
  }

  /** A unit nobody has launched yet, with any state file whose generation, if any, is a number. */
  predicate Fresh(w: World) {
    && (Generation in w.disk ==> w.disk[Generation].Num?)
    && w.pidFile == Absent && w.phase == Idle && w.handles == {} && w.children == map[]
    && w.stamps == [] && w.outcomes == [] && w.persisted == {} && !w.lost
  }
}
