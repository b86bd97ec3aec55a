/** The node as one state machine: upload requests, the status map, the channels, the
    coordinator, and its upload tasks, interleaving freely. Every branch body of the
    coordinator's event loop is one step; a request moves one step between its waits.

    All choice is in the steps, so a run is a list of steps. `History` and the `ticket`
    fields record what happened and no step depends on them; of `body` only the length is
    used, which is the number of bytes received. */
module Node {
  import opened Prelude
  import opened Chunking
  import opened Coordinator
  import Bridge
  import Frames
  import Session
  import Transfer

  const ADMISSION_CAPACITY := 16
  const BRIDGE_CAPACITY := 128

  datatype Config = Config(
    hasher: Hasher,
    size: nat,                  // CHUNK_SIZE
    canon: Bridge.IdPrinter,
    honest: PeerId -> bool,     // the peers that run handle_incoming_push
    maxInstant: Instant,
    window: nat)                // bytes a transport buffers

  ghost predicate ValidConfig(cfg: Config) {
    0 < cfg.size < Frames.U32_LIMIT
  }

  // ---------------------------------------------------------------- state

  /** Where a `new_blob` call is. `Unwinding`: failed or cancelled, permits returned, the
      reservation not yet removed. `Sent`: handed over, not yet committed. */
  datatype Phase = Reserved | Streaming | Unwinding | Sent | Committed | Failed

  datatype Request = Request(
    rawId: string,
    key: string,
    declared: nat,
    phase: Phase,
    held: nat,
    chunker: Chunker,
    body: Bytes)

  /** `Reported`: the upload ended and gave its slot back. Its update waits to be sent or, once
      the task is in `inbox`, to be handled. */
  datatype TaskPhase = Running | Reported(status: ChunkUploadStatus) | Gone

  datatype Task = Task(hash: Hash, data: Bytes, to: PeerId, at: Instant, phase: TaskPhase)

  datatype StatusUpdate = StatusUpdate(id: string, ticket: nat)   // always `Finalized`

  datatype History = History(
    sent: seq<nat>,                             // tickets in the order they were handed over
    done: seq<nat>,                             // ... whose Finalized update the bridge handled
    pushed: set<(PeerId, Hash)>,                // pushes that returned Ok
    verified: set<(PeerId, Hash, Bytes)>,       // what honest receivers checked
    issued: map<PeerId, Instant>,               // expiry of the latest permit of each peer
    admitted: nat,                              // distinct chunks of the blobs received so far
    acked: nat)                                 // Finalized updates applied to a chunk

  datatype Node = Node(
    now: Instant,
    requests: seq<Request>,
    statusMap: Bridge.StatusMap,
    budget: nat,
    admission: seq<Bridge.ToPipeline>,
    toBridge: seq<StatusUpdate>,
    pipe: PipelineState,
    freeSlots: nat,
    tasks: seq<Task>,
    inbox: seq<nat>,            // the tasks whose updates were sent and not handled, oldest first
    log: History)

  function Start(): Node {
    Node(0, [], map[], Bridge.TOTAL_CHUNK_BUDGET, [], [],
         PipelineState([], None, map[], map[]), UPLOAD_SLOTS, [], [],
         History([], [], {}, {}, map[], 0, 0))
  }

  // ---------------------------------------------------------------- steps

  datatype TaskOutcome =
    | PushOk(session: Session.State<Transfer.PushResult>)
    | PushErr
    | Expired

  datatype Step =
    | Tick(millis: nat)
    // new_blob and get_blob
    | Arrive(id: string, declared: nat)
    | Acquire(r: nat)
    | Frame(r: nat, data: Bytes)
    | Send(r: nat)
    | Commit(r: nat)
    | ReturnPermits(r: nat)
    | DropReservation(r: nat)
    | Inquire(id: string)
    | SendGetBlob(id: string)
    // the coordinator's event loop
    | StaleTimer
    | AssignTimer(peers: seq<PeerId>, spawned: seq<Upload>)
    | WouldStore(peer: PeerId)
    | Permit(peer: PeerId, validFor: nat, peers: seq<PeerId>, spawned: seq<Upload>)
    | ReceiveAdmission
    | Update(i: nat, peers: seq<PeerId>, spawned: seq<Upload>)
    // an upload task ends, and its update enters the channel to the coordinator
    | TaskEnds(i: nat, outcome: TaskOutcome)
    | Post(i: nat)
    // the bridge's message loop
    | ReceiveStatus

  function Permits(cfg: Config, declared: nat): nat
    requires cfg.size > 0
  {
    DivCeil(declared, cfg.size)
  }

  /** What the receiver of an accepted push checked. */
  ghost function Checked(cfg: Config, t: Task, session: Session.State<Transfer.PushResult>)
    : set<(PeerId, Hash, Bytes)>
    requires Frames.Framable(t.data)
  {
    var request := Transfer.PushRequest(t.hash, t.data);
    if !cfg.honest(t.to) || session.read > |request| then {} else
    match Transfer.Inspect(cfg.hasher, cfg.size, request[..session.read])
    case Verified(h, d) => {(t.to, h, d)}
    case _ => {}
  }

  /** A push to an honest peer returns Ok only at the end of a real session; from any other
      peer Ok can come out of nothing. */
  ghost predicate MayAccept(cfg: Config, t: Task, session: Session.State<Transfer.PushResult>) {
    && Frames.Framable(t.data)
    && (cfg.honest(t.to) ==>
          && Session.Reachable(Transfer.Push(cfg.hasher, cfg.size, cfg.window, t.hash, t.data), session)
          && session.outcome == Session.Finished(Transfer.Accepted))
  }

  function EffectOf(n: Node, i: nat): UpdateEffect
    requires i < |n.tasks| && n.tasks[i].phase.Reported?
  {
    OnUpdate(n.pipe, n.tasks[i].hash, n.tasks[i].phase.status, n.now)
  }

  /** The update of task `i` is the next to be handled. */
  predicate IsNext(n: Node, i: nat) {
    && i < |n.tasks| && n.tasks[i].phase.Reported?
    && n.inbox != [] && n.inbox[0] == i
  }

  ghost predicate Enabled(cfg: Config, n: Node, step: Step)
    requires ValidConfig(cfg)
  {
    match step
    case Tick(_) => true
    case Arrive(id, declared) =>
      && Bridge.Admissible(declared, cfg.size)
      && cfg.canon(id).Some? && cfg.canon(id).value !in n.statusMap
    case Acquire(r) =>
      r < |n.requests| && n.requests[r].phase.Reserved? && Permits(cfg, n.requests[r].declared) <= n.budget
    case Frame(r, data) =>
      && r < |n.requests| && n.requests[r].phase.Streaming?
      && |n.requests[r].body| + |data| <= n.requests[r].declared
      && |n.requests[r].chunker.buf| < cfg.size   // always so: a full buffer is shipped at once
    case Send(r) =>
      && r < |n.requests| && n.requests[r].phase.Streaming?
      && |n.requests[r].body| == n.requests[r].declared && |n.admission| < ADMISSION_CAPACITY
    case Commit(r) => r < |n.requests| && n.requests[r].phase.Sent?
    case ReturnPermits(r) => r < |n.requests| && n.requests[r].phase.Streaming?
    case DropReservation(r) =>
      r < |n.requests| && (n.requests[r].phase.Reserved? || n.requests[r].phase.Unwinding?)
    case Inquire(id) => cfg.canon(id).Some?
    case SendGetBlob(_) => |n.admission| < ADMISSION_CAPACITY
    case StaleTimer => true
    case AssignTimer(peers, spawned) => Assigns(n.pipe, n.now, n.freeSlots, peers, spawned)
    case WouldStore(_) => true
    case Permit(peer, validFor, peers, spawned) =>
      Assigns(OnPermit(n.pipe, peer, Expiry(n.now, validFor, cfg.maxInstant)), n.now, n.freeSlots, peers, spawned)
    case ReceiveAdmission => n.admission != []
    case Update(i, peers, spawned) =>
      && IsNext(n, i)
      && (EffectOf(n, i).stored.Some? ==> |n.toBridge| < BRIDGE_CAPACITY)
      && (if EffectOf(n, i).reassign
          then Assigns(EffectOf(n, i).pipe, n.now, n.freeSlots, peers, spawned)
          else spawned == [])
    case TaskEnds(i, outcome) =>
      && i < |n.tasks| && n.tasks[i].phase.Running?
      && (match outcome
          case PushOk(session) => MayAccept(cfg, n.tasks[i], session)
          case PushErr => true
          case Expired => Elapsed(n.now, n.tasks[i].at) >= CHUNK_UPLOAD_WINDOW * MILLIS)
    case Post(i) => i < |n.tasks| && n.tasks[i].phase.Reported? && i !in n.inbox
    case ReceiveStatus => n.toBridge != []
  }

  function NewTasks(spawned: seq<Upload>, now: Instant): (tasks: seq<Task>)
    ensures |tasks| == |spawned|
  {
    seq(|spawned|, k requires 0 <= k < |spawned| =>
      Task(spawned[k].hash, spawned[k].data, spawned[k].to, now, Running))
  }

  lemma SpawnFits(p: PipelineState, now: Instant, slots: nat, peers: seq<PeerId>, spawned: seq<Upload>)
    requires Assigns(p, now, slots, peers, spawned)
    ensures |spawned| <= slots
  {
  }

  /** The pipeline becomes `p` and a round of assignment starts uploads from it. */
  function Spawn(n: Node, p: PipelineState, spawned: seq<Upload>): Node
    requires |spawned| <= n.freeSlots
  {
    n.(pipe := AfterAssign(p, n.now, spawned),
       freeSlots := n.freeSlots - |spawned|,
       tasks := n.tasks + NewTasks(spawned, n.now))
  }

  function SetPhase(n: Node, r: nat, phase: Phase): Node
    requires r < |n.requests|
  {
    n.(requests := n.requests[r := n.requests[r].(phase := phase)])
  }

  function DoArrive(cfg: Config, n: Node, id: string, declared: nat): Node
    requires cfg.canon(id).Some?
  {
    var key := cfg.canon(id).value;
    n.(statusMap := Bridge.Reserve(n.statusMap, key),
       requests := n.requests + [Request(id, key, declared, Reserved, 0, EMPTY, [])])
  }

  function DoAcquire(cfg: Config, n: Node, r: nat): Node
    requires cfg.size > 0 && r < |n.requests| && Permits(cfg, n.requests[r].declared) <= n.budget
  {
    var k := Permits(cfg, n.requests[r].declared);
    n.(budget := n.budget - k,
       requests := n.requests[r := n.requests[r].(phase := Streaming, held := k)])
  }

  function DoFrame(cfg: Config, n: Node, r: nat, data: Bytes): Node
    requires r < |n.requests| && |n.requests[r].chunker.buf| < cfg.size
  {
    var q := n.requests[r];
    n.(requests := n.requests[r := q.(chunker := Feed(cfg.hasher, cfg.size, q.chunker, data),
                                      body := q.body + data)])
  }

  function Handed(cfg: Config, n: Node, r: nat): AdmittedBlob
    requires r < |n.requests|
  {
    var q := n.requests[r];
    AdmittedBlob(q.rawId, Finish(cfg.hasher, q.chunker), q.held, r)
  }

  function DoSend(cfg: Config, n: Node, r: nat): Node
    requires r < |n.requests|
  {
    n.(admission := n.admission + [Bridge.NewBlob(Handed(cfg, n, r))],
       requests := n.requests[r := n.requests[r].(phase := Sent, held := 0)],
       log := n.log.(sent := n.log.sent + [r]))
  }

  function DoReturnPermits(n: Node, r: nat): Node
    requires r < |n.requests|
  {
    n.(budget := n.budget + n.requests[r].held,
       requests := n.requests[r := n.requests[r].(phase := Unwinding, held := 0)])
  }

  function DoDropReservation(n: Node, r: nat): Node
    requires r < |n.requests|
  {
    SetPhase(n, r, Failed).(statusMap := Bridge.Release(n.statusMap, n.requests[r].key))
  }

  function DoReceiveAdmission(n: Node): Node
    requires n.admission != []
  {
    var m := n.(admission := n.admission[1..]);
    match n.admission[0]
    case GetBlob(_) => m
    case NewBlob(b) =>
      m.(pipe := OnNewBlob(n.pipe, b, n.now),
         log := n.log.(admitted := n.log.admitted + |Collapse(b.leaves)|))
  }

  function DoPermit(cfg: Config, n: Node, peer: PeerId, validFor: nat, spawned: seq<Upload>): Node
    requires |spawned| <= n.freeSlots
  {
    var expiry := Expiry(n.now, validFor, cfg.maxInstant);
    Spawn(n.(log := n.log.(issued := n.log.issued[peer := expiry])), OnPermit(n.pipe, peer, expiry), spawned)
  }

  /** Everything an update does except the assignment round at the end. An archived blob
      gives its permits back. */
  function Settle(n: Node, i: nat): Node
    requires IsNext(n, i)
  {
    var e := EffectOf(n, i);
    var m := n.(inbox := n.inbox[1..],
                tasks := n.tasks[i := n.tasks[i].(phase := Gone)],
                pipe := e.pipe,
                log := n.log.(acked := n.log.acked + if e.reassign then 1 else 0));
    match e.stored
    case None => m
    case Some(blob) =>
      m.(toBridge := n.toBridge + [StatusUpdate(blob.id, blob.ticket)], budget := n.budget + blob.allowance)
  }

  function DoUpdate(n: Node, i: nat, spawned: seq<Upload>): Node
    requires IsNext(n, i) && |spawned| <= n.freeSlots
  {
    if EffectOf(n, i).reassign then Spawn(Settle(n, i), Settle(n, i).pipe, spawned) else Settle(n, i)
  }

  ghost function DoTaskEnds(cfg: Config, n: Node, i: nat, outcome: TaskOutcome): Node
    requires i < |n.tasks|
    requires outcome.PushOk? ==> Frames.Framable(n.tasks[i].data)
  {
    var t := n.tasks[i];
    var end := match outcome case PushOk(_) => Succeeded case PushErr => PushFailed case Expired => TimedOut;
    var phase := match ReportOf(t.to, end) case Some(status) => Reported(status) case None => Gone;
    var m := n.(freeSlots := n.freeSlots + 1, tasks := n.tasks[i := t.(phase := phase)]);
    match outcome
    case PushOk(session) =>
      m.(log := n.log.(pushed := n.log.pushed + {(t.to, t.hash)},
                       verified := n.log.verified + Checked(cfg, t, session)))
    case _ => m
  }

  function DoReceiveStatus(n: Node): Node
    requires n.toBridge != []
  {
    n.(toBridge := n.toBridge[1..],
       statusMap := Bridge.Record(n.statusMap, n.toBridge[0].id, Bridge.Finalized),
       log := n.log.(done := n.log.done + [n.toBridge[0].ticket]))
  }

  ghost function Apply(cfg: Config, n: Node, step: Step): Node
    requires ValidConfig(cfg) && Enabled(cfg, n, step)
  {
    match step
    case Tick(millis) => n.(now := n.now + millis)
    case Arrive(id, declared) => DoArrive(cfg, n, id, declared)
    case Acquire(r) => DoAcquire(cfg, n, r)
    case Frame(r, data) => DoFrame(cfg, n, r, data)
    case Send(r) => DoSend(cfg, n, r)
    case Commit(r) => SetPhase(n, r, Committed)
    case ReturnPermits(r) => DoReturnPermits(n, r)
    case DropReservation(r) => DoDropReservation(n, r)
    case Inquire(id) => n.(statusMap := Bridge.Inquire(n.statusMap, cfg.canon(id).value))
    case SendGetBlob(id) => n.(admission := n.admission + [Bridge.GetBlob(id)])
    case StaleTimer => n.(pipe := OnStaleTimer(n.pipe, n.now))
    case AssignTimer(peers, spawned) =>
      SpawnFits(n.pipe, n.now, n.freeSlots, peers, spawned);
      Spawn(n, n.pipe, spawned)
    case WouldStore(peer) => n.(pipe := OnWouldStore(n.pipe, peer, n.now))
    case Permit(peer, validFor, peers, spawned) =>
      SpawnFits(OnPermit(n.pipe, peer, Expiry(n.now, validFor, cfg.maxInstant)), n.now, n.freeSlots, peers, spawned);
      DoPermit(cfg, n, peer, validFor, spawned)
    case ReceiveAdmission => DoReceiveAdmission(n)
    case Update(i, peers, spawned) =>
      if EffectOf(n, i).reassign then
        SpawnFits(EffectOf(n, i).pipe, n.now, n.freeSlots, peers, spawned);
        DoUpdate(n, i, spawned)
      else Settle(n, i)
    case TaskEnds(i, outcome) => DoTaskEnds(cfg, n, i, outcome)
    case Post(i) => n.(inbox := n.inbox + [i])
    case ReceiveStatus => DoReceiveStatus(n)
  }

  /** Steps that leave the pipeline and the upload tasks alone: those of the requests, the
      bridge, the clock, and the sending of an update. */
  predicate OffPipeline(step: Step) {
    match step
    case StaleTimer => false
    case AssignTimer(_, _) => false
    case WouldStore(_) => false
    case Permit(_, _, _, _) => false
    case ReceiveAdmission => false
    case Update(_, _, _) => false
    case TaskEnds(_, _) => false
    case _ => true
  }

  /** Steps that take a request from one phase to the next, or feed it. */
  predicate MovesRequest(step: Step) {
    step.Acquire? || step.Frame? || step.Send? || step.Commit? || step.ReturnPermits? || step.DropReservation?
  }

  lemma OffPipelineStep(cfg: Config, n: Node, step: Step)
    requires ValidConfig(cfg) && Enabled(cfg, n, step) && OffPipeline(step)
    ensures var m := Apply(cfg, n, step);
            && m.pipe == n.pipe && m.tasks == n.tasks && m.freeSlots == n.freeSlots && m.now >= n.now
            && m.log == n.log.(sent := m.log.sent, done := m.log.done)
  {
  }

  // ---------------------------------------------------------------- runs

  /** The node after a list of steps, if each was enabled in its turn. */
  ghost function Run(cfg: Config, steps: seq<Step>): Option<Node>
    requires ValidConfig(cfg)
  {
    if steps == [] then Some(Start()) else
    var last := |steps| - 1;
    match Run(cfg, steps[..last])
    case None => None
    case Some(n) => if Enabled(cfg, n, steps[last]) then Some(Apply(cfg, n, steps[last])) else None
  }

  lemma RunSnoc(cfg: Config, steps: seq<Step>, step: Step)
    requires ValidConfig(cfg)
    ensures Run(cfg, steps + [step]) ==
            if Run(cfg, steps).Some? && Enabled(cfg, Run(cfg, steps).value, step)
            then Some(Apply(cfg, Run(cfg, steps).value, step)) else None
  {
    assert (steps + [step])[..|steps|] == steps;
  }

  lemma {:induction false} RunPrefix(cfg: Config, steps: seq<Step>, more: seq<Step>)
    requires ValidConfig(cfg) && Run(cfg, steps + more).Some?
    ensures Run(cfg, steps).Some?
  {
    if more == [] {
      assert steps + more == steps;
    } else {
      var last := |more| - 1;
      assert steps + more == (steps + more[..last]) + [more[last]];
      RunSnoc(cfg, steps + more[..last], more[last]);
      RunPrefix(cfg, steps, more[..last]);
    }
  }

  /** However the node came to be `n`, these steps take it on to `m`. */
  ghost predicate Leads(cfg: Config, n: Node, more: seq<Step>, m: Node)
    requires ValidConfig(cfg)
  {
    forall steps | Run(cfg, steps) == Some(n) :: Run(cfg, steps + more) == Some(m)
  }

  lemma LeadsNowhere(cfg: Config, n: Node)
    requires ValidConfig(cfg)
    ensures Leads(cfg, n, [], n)
  {
    forall steps | Run(cfg, steps) == Some(n) ensures Run(cfg, steps + []) == Some(n) {
      assert steps + [] == steps;
    }
  }

  lemma LeadsOn(cfg: Config, n: Node, more: seq<Step>, m: Node, rest: seq<Step>, l: Node)
    requires ValidConfig(cfg) && Leads(cfg, n, more, m) && Leads(cfg, m, rest, l)
    ensures Leads(cfg, n, more + rest, l)
  {
    forall steps | Run(cfg, steps) == Some(n) ensures Run(cfg, steps + (more + rest)) == Some(l) {
      assert steps + (more + rest) == (steps + more) + rest;
      assert Run(cfg, steps + more) == Some(m);
    }
  }

  /** One step, and then the rest. */
  lemma LeadsFrom(cfg: Config, n: Node, step: Step, rest: seq<Step>, m: Node)
    requires ValidConfig(cfg) && Enabled(cfg, n, step) && Leads(cfg, Apply(cfg, n, step), rest, m)
    ensures Leads(cfg, n, [step] + rest, m)
  {
    forall steps | Run(cfg, steps) == Some(n) ensures Run(cfg, steps + [step]) == Some(Apply(cfg, n, step)) {
      RunSnoc(cfg, steps, step);
    }
    LeadsOn(cfg, n, [step], Apply(cfg, n, step), rest, m);
  }

  ghost predicate Outstanding(t: Task) {
    !t.phase.Gone?
  }

  /** Every attempt that still runs or whose update is not handled yet was assigned less
      than 31 seconds ago. */
  ghost predicate Timely(n: Node) {
    forall i | 0 <= i < |n.tasks| && Outstanding(n.tasks[i]) ::
      n.now < n.tasks[i].at + (CHUNK_UPLOAD_WINDOW + 1) * MILLIS
  }

  /** A run that was timely all along. */
  ghost predicate TimelyRun(cfg: Config, steps: seq<Step>)
    requires ValidConfig(cfg)
  {
    && Run(cfg, steps).Some?
    && Timely(Run(cfg, steps).value)
    && (steps != [] ==> TimelyRun(cfg, steps[..|steps| - 1]))
  }
}
