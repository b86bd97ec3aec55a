/** Nothing is lost and nothing is made: the 1536 admission permits and the 20 upload slots
    are conserved by every step, and no holder has more bytes than its permits pay for. */
module Budget {
  import opened Prelude
  import opened Chunking
  import opened Coordinator
  import opened Node
  import opened Custody
  import Bridge
  import Frames

  // ---------------------------------------------------------------- upload slots

  function SlotOf(t: Task): nat {
    if t.phase.Running? then 1 else 0
  }

  /** Free slots and running uploads always make twenty. */
  predicate SlotsOk(n: Node) {
    n.freeSlots + SumOf(n.tasks, SlotOf) == UPLOAD_SLOTS
  }

  lemma {:induction false} NewTasksHoldSlots(spawned: seq<Upload>, now: Instant)
    ensures SumOf(NewTasks(spawned, now), SlotOf) == |spawned|
  {
    if spawned != [] {
      NewTasksHoldSlots(spawned[1..], now);
      assert NewTasks(spawned, now)[1..] == NewTasks(spawned[1..], now);
    }
  }

  lemma SpawnKeepsSlots(n: Node, p: PipelineState, spawned: seq<Upload>)
    requires SlotsOk(n) && |spawned| <= n.freeSlots
    ensures SlotsOk(Spawn(n, p, spawned))
  {
    SumOfConcat(n.tasks, NewTasks(spawned, n.now), SlotOf);
    NewTasksHoldSlots(spawned, n.now);
  }

  lemma SettleKeepsSlots(n: Node, i: nat)
    requires SlotsOk(n) && IsNext(n, i)
    ensures SlotsOk(Settle(n, i))
  {
    SumOfUpdate(n.tasks, i, n.tasks[i].(phase := Gone), SlotOf);
  }

  lemma TaskEndReturnsSlot(cfg: Config, n: Node, i: nat, outcome: TaskOutcome)
    requires SlotsOk(n) && i < |n.tasks| && n.tasks[i].phase.Running?
    requires outcome.PushOk? ==> Frames.Framable(n.tasks[i].data)
    ensures SlotsOk(DoTaskEnds(cfg, n, i, outcome))
  {
    SumOfUpdate(n.tasks, i, DoTaskEnds(cfg, n, i, outcome).tasks[i], SlotOf);
  }

  lemma PermitKeepsSlots(cfg: Config, n: Node, step: Step)
    requires ValidConfig(cfg) && SlotsOk(n) && step.Permit? && Enabled(cfg, n, step)
    ensures SlotsOk(Apply(cfg, n, step))
  {
    var expiry := Expiry(n.now, step.validFor, cfg.maxInstant);
    SpawnKeepsSlots(n.(log := n.log.(issued := n.log.issued[step.peer := expiry])),
                    OnPermit(n.pipe, step.peer, expiry), step.spawned);
  }

  lemma UpdateKeepsSlots(cfg: Config, n: Node, step: Step)
    requires ValidConfig(cfg) && SlotsOk(n) && step.Update? && Enabled(cfg, n, step)
    ensures SlotsOk(Apply(cfg, n, step))
  {
    SettleKeepsSlots(n, step.i);
    if EffectOf(n, step.i).reassign {
      SpawnKeepsSlots(Settle(n, step.i), Settle(n, step.i).pipe, step.spawned);
    }
  }

  lemma PipelineKeepsSlots(cfg: Config, n: Node, step: Step)
    requires ValidConfig(cfg) && SlotsOk(n) && Enabled(cfg, n, step) && !OffPipeline(step)
    ensures SlotsOk(Apply(cfg, n, step))
  {
    match step
    case AssignTimer(peers, spawned) => SpawnKeepsSlots(n, n.pipe, spawned);
    case Permit(_, _, _, _) => PermitKeepsSlots(cfg, n, step);
    case Update(_, _, _) => UpdateKeepsSlots(cfg, n, step);
    case TaskEnds(i, outcome) => TaskEndReturnsSlot(cfg, n, i, outcome);
    case _ =>
  }

  lemma SlotsStep(cfg: Config, n: Node, step: Step)
    requires ValidConfig(cfg) && SlotsOk(n) && Enabled(cfg, n, step)
    ensures SlotsOk(Apply(cfg, n, step))
  {
    if OffPipeline(step) {
      OffPipelineStep(cfg, n, step);
    } else {
      PipelineKeepsSlots(cfg, n, step);
    }
  }

  // ---------------------------------------------------------------- admission permits

  function HeldBy(q: Request): nat {
    q.held
  }

  function CarriedBy(m: Bridge.ToPipeline): nat {
    match m case NewBlob(b) => b.allowance case GetBlob(_) => 0
  }

  function AllowanceOf(b: LocalBlob): nat {
    b.allowance
  }

  function PipePermits(p: PipelineState): nat {
    SumOf(p.pending, AllowanceOf) + if p.current.Some? then p.current.value.allowance else 0
  }

  /** Every permit is free or held by exactly one request, message, or blob. */
  predicate BudgetOk(n: Node) {
    n.budget + SumOf(n.requests, HeldBy) + SumOf(n.admission, CarriedBy) + PipePermits(n.pipe)
    == Bridge.TOTAL_CHUNK_BUDGET
  }

  lemma BeginNextKeepsPermits(p: PipelineState, now: Instant)
    ensures PipePermits(BeginNextBlob(p, now)) == PipePermits(p)
  {
  }

  lemma NewBlobAddsPermits(p: PipelineState, b: AdmittedBlob, now: Instant)
    ensures PipePermits(OnNewBlob(p, b, now)) == PipePermits(p) + b.allowance
  {
    SumOfConcat(p.pending, [ToLocal(b, now)], AllowanceOf);
    assert SumOf([ToLocal(b, now)], AllowanceOf) == b.allowance;
    BeginNextKeepsPermits(AddLocalBlob(p, b, now), now);
  }

  lemma UpdateKeepsPermits(p: PipelineState, hash: Hash, status: ChunkUploadStatus, now: Instant)
    ensures var e := OnUpdate(p, hash, status, now);
            PipePermits(p) == PipePermits(e.pipe) + if e.stored.Some? then e.stored.value.allowance else 0
  {
    BeginNextKeepsPermits(p.(current := None), now);
  }

  lemma AppendedPermits(q: seq<Bridge.ToPipeline>, m: Bridge.ToPipeline)
    ensures SumOf(q + [m], CarriedBy) == SumOf(q, CarriedBy) + CarriedBy(m)
  {
    SumOfConcat(q, [m], CarriedBy);
    assert SumOf([m], CarriedBy) == CarriedBy(m);
  }

  /** A request that changes hands with the budget. */
  lemma RequestTrades(n: Node, m: Node, r: nat)
    requires BudgetOk(n) && r < |n.requests| == |m.requests|
    requires m.requests == n.requests[r := m.requests[r]]
    requires m.admission == n.admission && m.pipe == n.pipe
    requires m.budget + m.requests[r].held == n.budget + n.requests[r].held
    ensures BudgetOk(m)
  {
    SumOfUpdate(n.requests, r, m.requests[r], HeldBy);
  }

  lemma ArrivalIsFree(n: Node, m: Node, q: Request)
    requires BudgetOk(n) && m.requests == n.requests + [q] && q.held == 0
    requires m.admission == n.admission && m.pipe == n.pipe && m.budget == n.budget
    ensures BudgetOk(m)
  {
    SumOfConcat(n.requests, [q], HeldBy);
    assert SumOf([q], HeldBy) == HeldBy(q) + SumOf([q][1..], HeldBy);
  }

  lemma SendMovesPermits(cfg: Config, n: Node, r: nat)
    requires BudgetOk(n) && r < |n.requests|
    ensures BudgetOk(DoSend(cfg, n, r))
  {
    SumOfUpdate(n.requests, r, n.requests[r].(phase := Sent, held := 0), HeldBy);
    AppendedPermits(n.admission, Bridge.NewBlob(Handed(cfg, n, r)));
  }

  lemma ReceiptMovesPermits(n: Node)
    requires BudgetOk(n) && n.admission != []
    ensures BudgetOk(DoReceiveAdmission(n))
  {
    if n.admission[0].NewBlob? {
      NewBlobAddsPermits(n.pipe, n.admission[0].blob, n.now);
    }
  }

  lemma SettleReturnsPermits(n: Node, i: nat)
    requires BudgetOk(n) && IsNext(n, i)
    ensures BudgetOk(Settle(n, i))
  {
    UpdateKeepsPermits(n.pipe, n.tasks[i].hash, n.tasks[i].phase.status, n.now);
  }

  lemma SpawnKeepsPermits(n: Node, p: PipelineState, spawned: seq<Upload>)
    requires BudgetOk(n.(pipe := p)) && |spawned| <= n.freeSlots
    ensures BudgetOk(Spawn(n, p, spawned))
  {
  }

  /** Only a streaming request holds permits. */
  predicate HoldsOnlyStreaming(n: Node) {
    forall r | 0 <= r < |n.requests| && !n.requests[r].phase.Streaming? :: n.requests[r].held == 0
  }

  lemma RequestsHoldOnlyStreaming(cfg: Config, n: Node)
    requires ValidConfig(cfg) && RequestsOk(cfg, n)
    ensures HoldsOnlyStreaming(n)
  {
    forall r | 0 <= r < |n.requests| && !n.requests[r].phase.Streaming? ensures n.requests[r].held == 0 {
      assert RequestOk(cfg, n.requests[r]);
    }
  }

  lemma PermitKeepsPermits(cfg: Config, n: Node, step: Step)
    requires ValidConfig(cfg) && BudgetOk(n) && step.Permit? && Enabled(cfg, n, step)
    ensures BudgetOk(Apply(cfg, n, step))
  {
    var expiry := Expiry(n.now, step.validFor, cfg.maxInstant);
    SpawnKeepsPermits(n.(log := n.log.(issued := n.log.issued[step.peer := expiry])),
                      OnPermit(n.pipe, step.peer, expiry), step.spawned);
  }

  lemma UpdateReturnsPermits(cfg: Config, n: Node, step: Step)
    requires ValidConfig(cfg) && BudgetOk(n) && step.Update? && Enabled(cfg, n, step)
    ensures BudgetOk(Apply(cfg, n, step))
  {
    SettleReturnsPermits(n, step.i);
    if EffectOf(n, step.i).reassign {
      SpawnKeepsPermits(Settle(n, step.i), Settle(n, step.i).pipe, step.spawned);
    }
  }

  /** What a request does. */
  lemma RequestKeepsBudget(cfg: Config, n: Node, step: Step)
    requires ValidConfig(cfg) && BudgetOk(n) && HoldsOnlyStreaming(n) && Enabled(cfg, n, step)
    requires MovesRequest(step)
    ensures BudgetOk(Apply(cfg, n, step))
  {
    match step
    case Acquire(r) => RequestTrades(n, DoAcquire(cfg, n, r), r);
    case Frame(r, data) => RequestTrades(n, DoFrame(cfg, n, r, data), r);
    case Send(r) => SendMovesPermits(cfg, n, r);
    case Commit(r) => RequestTrades(n, SetPhase(n, r, Committed), r);
    case ReturnPermits(r) => RequestTrades(n, DoReturnPermits(n, r), r);
    case DropReservation(r) => RequestTrades(n, DoDropReservation(n, r), r);
  }

  lemma BudgetStep(cfg: Config, n: Node, step: Step)
    requires ValidConfig(cfg) && BudgetOk(n) && HoldsOnlyStreaming(n) && Enabled(cfg, n, step)
    ensures BudgetOk(Apply(cfg, n, step))
  {
    match step
    case Arrive(id, declared) =>
      var m := DoArrive(cfg, n, id, declared);
      ArrivalIsFree(n, m, m.requests[|n.requests|]);
    case SendGetBlob(id) => AppendedPermits(n.admission, Bridge.GetBlob(id));
    case ReceiveAdmission => ReceiptMovesPermits(n);
    case AssignTimer(peers, spawned) => SpawnKeepsPermits(n, n.pipe, spawned);
    case Permit(_, _, _, _) => PermitKeepsPermits(cfg, n, step);
    case Update(_, _, _) => UpdateReturnsPermits(cfg, n, step);
    case Tick(_) =>
    case Inquire(_) =>
    case StaleTimer =>
    case WouldStore(_) =>
    case TaskEnds(_, _) =>
    case Post(_) =>
    case ReceiveStatus =>
    case _ => RequestKeepsBudget(cfg, n, step);
  }

  // ---------------------------------------------------------------- bytes behind a permit

  function LeafBytes(l: Leaf): nat {
    |l.data|
  }

  lemma {:induction false} ConcatLength(leaves: seq<Leaf>)
    ensures |Concat(DataOf(leaves))| == SumOf(leaves, LeafBytes)
  {
    if leaves != [] {
      assert DataOf(leaves)[1..] == DataOf(leaves[1..]);
      ConcatLength(leaves[1..]);
    }
  }

  /** Bytes stored in a chunk map. */
  ghost function StoredBytes(chunks: map<Hash, Chunk>): nat
    decreases |chunks|
  {
    if chunks == map[] then 0 else
    var h :| h in chunks;
    |chunks[h].data| + StoredBytes(chunks - {h})
  }

  lemma OneFewer(chunks: map<Hash, Chunk>, h: Hash, size: nat)
    requires h in chunks
    ensures |chunks - {h}| == |chunks| - 1
    ensures |chunks| * size == |chunks - {h}| * size + size
  {
    assert (chunks - {h}).Keys == chunks.Keys - {h};
    assert |chunks.Keys| == |chunks| && |(chunks - {h}).Keys| == |chunks - {h}|;
  }

  lemma {:induction false} StoredBytesBound(chunks: map<Hash, Chunk>, size: nat)
    requires forall h | h in chunks :: |chunks[h].data| <= size
    ensures StoredBytes(chunks) <= |chunks| * size
    decreases |chunks|
  {
    if chunks != map[] {
      var h :| h in chunks && StoredBytes(chunks) == |chunks[h].data| + StoredBytes(chunks - {h});
      OneFewer(chunks, h, size);
      StoredBytesBound(chunks - {h}, size);
    }
  }

  /** A request that streams holds no more bytes than its permits cover. */
  lemma StreamingWithinPermits(cfg: Config, n: Node, r: nat)
    requires ValidConfig(cfg) && RequestsOk(cfg, n) && r < |n.requests| && n.requests[r].phase.Streaming?
    ensures SumOf(n.requests[r].chunker.chunks, LeafBytes) + |n.requests[r].chunker.buf|
            <= n.requests[r].held * cfg.size
  {
    var q := n.requests[r];
    assert RequestOk(cfg, q);
    ConcatLength(q.chunker.chunks);
  }

  /** What is in the admission channel is exactly as many chunks as it has permits. */
  lemma QueuedWithinPermits(cfg: Config, n: Node, k: nat)
    requires ValidConfig(cfg) && RequestsOk(cfg, n) && BlobsOk(cfg, n)
    requires k < |n.admission| && n.admission[k].NewBlob?
    ensures |n.admission[k].blob.leaves| == n.admission[k].blob.allowance
    ensures SumOf(n.admission[k].blob.leaves, LeafBytes) <= n.admission[k].blob.allowance * cfg.size
  {
    var b := n.admission[k].blob;
    assert AdmittedOk(cfg, n, b);
    assert RequestOk(cfg, n.requests[b.ticket]);
    FinishIsSplit(cfg.hasher, cfg.size, n.requests[b.ticket].chunker);
    SplitShape(n.requests[b.ticket].body, cfg.size);
    ConcatLength(b.leaves);
  }

  lemma MorePermitsMoreBytes(few: nat, many: nat, size: nat)
    requires few <= many
    ensures few * size <= many * size
  {
  }

  lemma BlobChunkSizes(cfg: Config, n: Node, b: LocalBlob)
    requires ValidConfig(cfg) && RequestsOk(cfg, n) && LocalOk(cfg, n, b)
    ensures 0 < |b.chunks| <= b.allowance
    ensures forall h | h in b.chunks :: |b.chunks[h].data| <= cfg.size
  {
    var q := n.requests[b.ticket];
    var leaves := LeavesOf(cfg, n, b.ticket);
    assert RequestOk(cfg, q);
    FinishIsSplit(cfg.hasher, cfg.size, q.chunker);
    CollapseSize(leaves);
    assert |b.chunks| == |b.chunks.Keys| == |Collapse(leaves).Keys| == |Collapse(leaves)|;
    forall h | h in b.chunks ensures |b.chunks[h].data| <= cfg.size {
      var k := CollapseOrigin(leaves, h);
      assert leaves[k].data == b.chunks[h].data;
    }
    assert |leaves| == Permits(cfg, q.declared) > 0;
  }

  /** Waiting and current blobs: after dedup there can only be fewer chunks than permits. */
  lemma StoredWithinPermits(cfg: Config, n: Node, b: LocalBlob)
    requires ValidConfig(cfg) && RequestsOk(cfg, n) && LocalOk(cfg, n, b)
    ensures StoredBytes(b.chunks) <= b.allowance * cfg.size
  {
    BlobChunkSizes(cfg, n, b);
    StoredBytesBound(b.chunks, cfg.size);
    MorePermitsMoreBytes(|b.chunks|, b.allowance, cfg.size);
  }
}
