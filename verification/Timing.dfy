/** What the 31-second rule buys. If every attempt is over, and its update handled, less
    than 31 seconds after its assignment, then attempts never overlap, every update finds
    its chunk just as the attempt left it, Finalized is never undone, and the work that
    remains is known exactly. */
module Timing {
  import opened Prelude
  import opened Chunking
  import opened Coordinator
  import opened Node
  import opened Custody
  import opened Attempts

  // ---------------------------------------------------------------- one attempt per chunk

  /** The attempt carries a chunk of the current blob, in flight to the attempt's peer since
      the attempt's assignment. */
  ghost predicate Matches(p: PipelineState, t: Task) {
    && p.current.Some? && t.hash in p.current.value.chunks
    && p.current.value.chunks[t.hash].status == Inflight(t.to)
    && p.current.value.chunks[t.hash].at == t.at
    && p.current.value.chunks[t.hash].data == t.data
  }

  ghost predicate Healthy(n: Node) {
    && (forall i | 0 <= i < |n.tasks| && Outstanding(n.tasks[i]) :: Matches(n.pipe, n.tasks[i]))
    && (forall i, j | 0 <= i < j < |n.tasks| && Outstanding(n.tasks[i]) && Outstanding(n.tasks[j]) ::
          n.tasks[i].hash != n.tasks[j].hash)
  }

  /** The heart of it: the chunk of an outstanding attempt is due again exactly from 31
      seconds after the attempt's assignment. */
  lemma OutstandingIsDueFrom31Seconds(n: Node, i: nat)
    requires TasksOk(n) && i < |n.tasks| && Outstanding(n.tasks[i]) && Matches(n.pipe, n.tasks[i])
    ensures IsEligible(n.pipe.current.value.chunks[n.tasks[i].hash], n.now)
            <==> n.now >= n.tasks[i].at + (CHUNK_UPLOAD_WINDOW + 1) * MILLIS
  {
    assert TaskOk(n, n.tasks[i]);
  }

  /** An outstanding attempt is not assigned again. */
  lemma NotAssignedAgain(n: Node, i: nat, peers: seq<PeerId>, spawned: seq<Upload>)
    requires Timely(n) && TasksOk(n) && i < |n.tasks| && Outstanding(n.tasks[i]) && Matches(n.pipe, n.tasks[i])
    requires Assigns(n.pipe, n.now, n.freeSlots, peers, spawned)
    ensures forall k | 0 <= k < |spawned| :: spawned[k].hash != n.tasks[i].hash
    ensures Matches(AfterAssign(n.pipe, n.now, spawned), n.tasks[i])
  {
    OutstandingIsDueFrom31Seconds(n, i);
    RetargetEffect(n.pipe.current.value.chunks, n.now, spawned);
  }

  /** A new attempt starts out matched. */
  lemma NewTaskMatches(p: PipelineState, now: Instant, slots: nat, peers: seq<PeerId>, spawned: seq<Upload>, k: nat)
    requires Assigns(p, now, slots, peers, spawned) && k < |spawned|
    ensures Matches(AfterAssign(p, now, spawned), NewTasks(spawned, now)[k])
  {
    RetargetEffect(p.current.value.chunks, now, spawned);
  }

  lemma SpawnKeepsHealthy(n: Node, peers: seq<PeerId>, spawned: seq<Upload>)
    requires Healthy(n) && Timely(n) && TasksOk(n)
    requires Assigns(n.pipe, n.now, n.freeSlots, peers, spawned) && |spawned| <= n.freeSlots
    ensures Healthy(Spawn(n, n.pipe, spawned))
  {
    var m := Spawn(n, n.pipe, spawned);
    forall i | 0 <= i < |m.tasks| && Outstanding(m.tasks[i]) ensures Matches(m.pipe, m.tasks[i]) {
      if i < |n.tasks| {
        NotAssignedAgain(n, i, peers, spawned);
      } else {
        NewTaskMatches(n.pipe, n.now, n.freeSlots, peers, spawned, i - |n.tasks|);
      }
    }
    forall i, j | 0 <= i < j < |m.tasks| && Outstanding(m.tasks[i]) && Outstanding(m.tasks[j])
      ensures m.tasks[i].hash != m.tasks[j].hash
    {
      if i < |n.tasks| <= j {
        NotAssignedAgain(n, i, peers, spawned);
        assert m.tasks[j] == NewTasks(spawned, n.now)[j - |n.tasks|];
      } else if |n.tasks| <= i {
        assert m.tasks[i] == NewTasks(spawned, n.now)[i - |n.tasks|];
        assert m.tasks[j] == NewTasks(spawned, n.now)[j - |n.tasks|];
      }
    }
  }

  /** A handled update finds its chunk in the current blob, in flight to the very peer the
      update is about. */
  lemma UpdateFindsItsChunk(n: Node, i: nat)
    requires Healthy(n) && TasksOk(n) && i < |n.tasks| && n.tasks[i].phase.Reported?
    ensures var t := n.tasks[i];
            && n.pipe.current.Some? && t.hash in n.pipe.current.value.chunks
            && n.pipe.current.value.chunks[t.hash].status == Inflight(t.to)
            && (t.phase.status == Pending || t.phase.status == Finalized(t.to))
  {
    assert Matches(n.pipe, n.tasks[i]);
    assert TaskOk(n, n.tasks[i]);
  }

  /** Two outstanding attempts are for different chunks, each in flight to its peer. */
  lemma OutstandingApart(n: Node, i: nat, j: nat)
    requires Healthy(n) && TasksOk(n)
    requires i < |n.tasks| && j < |n.tasks| && Outstanding(n.tasks[i]) && Outstanding(n.tasks[j])
    ensures n.tasks[i].hash == n.tasks[j].hash ==> i == j
    ensures n.pipe.current.Some? && n.tasks[i].hash in n.pipe.current.value.chunks
    ensures n.pipe.current.value.chunks[n.tasks[i].hash].status == Inflight(n.tasks[i].to)
    ensures n.pipe.current.value.chunks[n.tasks[i].hash].data == n.tasks[i].data
    ensures n.tasks[i].phase.Reported? ==> n.tasks[i].phase.status in {Pending, Finalized(n.tasks[i].to)}
  {
    assert Matches(n.pipe, n.tasks[i]);
    assert TaskOk(n, n.tasks[i]);
  }

  /** As long as another attempt is outstanding, the blob is not complete. */
  lemma OthersKeepTheirMatch(n: Node, i: nat, j: nat)
    requires Healthy(n) && TasksOk(n) && i < |n.tasks| && n.tasks[i].phase.Reported?
    requires j < |n.tasks| && j != i && Outstanding(n.tasks[j])
    ensures Matches(EffectOf(n, i).pipe, n.tasks[j])
  {
    UpdateFindsItsChunk(n, i);
    var t, u := n.tasks[i], n.tasks[j];
    assert Matches(n.pipe, u);
    assert Outstanding(t);
    assert t.hash != u.hash;
    var chunks := n.pipe.current.value.chunks;
    var after := chunks[t.hash := Chunk(chunks[t.hash].data, t.phase.status, n.now)];
    assert after[u.hash] == chunks[u.hash];
    assert !AllFinalized(after);
  }

  lemma SettleKeepsHealthy(n: Node, i: nat)
    requires Healthy(n) && TasksOk(n) && IsNext(n, i)
    ensures Healthy(Settle(n, i))
    ensures Timely(n) ==> Timely(Settle(n, i))
    ensures TasksOk(Settle(n, i))
  {
    var m := Settle(n, i);
    forall j | 0 <= j < |m.tasks| ensures TaskOk(m, m.tasks[j]) {
      assert TaskOk(n, n.tasks[j]);
    }
    forall j | 0 <= j < |m.tasks| && Outstanding(m.tasks[j]) ensures Matches(m.pipe, m.tasks[j]) {
      OthersKeepTheirMatch(n, i, j);
    }
  }

  lemma PipeSwapKeepsHealthy(n: Node, m: Node)
    requires Healthy(n) && m.tasks == n.tasks && m.pipe.current == n.pipe.current
    ensures Healthy(m)
  {
    forall i | 0 <= i < |m.tasks| && Outstanding(m.tasks[i]) ensures Matches(m.pipe, m.tasks[i]) {
      assert Matches(n.pipe, n.tasks[i]);
    }
  }

  lemma PermitKeepsHealthy(n: Node, m: Node, p: PipelineState)
    requires Healthy(n) && Timely(n) && TasksOk(n)
    requires m.tasks == n.tasks && m.now == n.now && m.log.pushed == n.log.pushed && p.current == n.pipe.current
    ensures Healthy(m.(pipe := p)) && Timely(m.(pipe := p)) && TasksOk(m.(pipe := p))
  {
    PipeSwapKeepsHealthy(n, m.(pipe := p));
    forall i | 0 <= i < |m.tasks| ensures TaskOk(m.(pipe := p), m.tasks[i]) {
      assert TaskOk(n, n.tasks[i]);
    }
  }

  lemma ReceiptKeepsHealthy(n: Node)
    requires Healthy(n) && n.admission != []
    ensures Healthy(DoReceiveAdmission(n))
  {
    var m := DoReceiveAdmission(n);
    forall i | 0 <= i < |m.tasks| && Outstanding(m.tasks[i]) ensures Matches(m.pipe, m.tasks[i]) {
      assert Matches(n.pipe, n.tasks[i]);
    }
  }

  lemma TaskEndKeepsHealthy(n: Node, m: Node, i: nat)
    requires Healthy(n) && i < |n.tasks| && n.tasks[i].phase.Running? && m.pipe == n.pipe
    requires |m.tasks| == |n.tasks| && m.tasks == n.tasks[i := m.tasks[i]]
    requires m.tasks[i].(phase := Running) == n.tasks[i]
    ensures Healthy(m)
  {
    var t, u := m.tasks[i], n.tasks[i];
    assert t.hash == u.hash && t.data == u.data && t.to == u.to && t.at == u.at;
    forall j | 0 <= j < |m.tasks| && Outstanding(m.tasks[j]) ensures Matches(m.pipe, m.tasks[j]) {
      assert Matches(n.pipe, n.tasks[j]);
    }
  }

  lemma PipelineKeepsHealthy(cfg: Config, n: Node, step: Step)
    requires ValidConfig(cfg) && TasksOk(n) && Healthy(n) && Timely(n) && Enabled(cfg, n, step) && !OffPipeline(step)
    ensures Healthy(Apply(cfg, n, step))
  {
    match step
    case AssignTimer(peers, spawned) => SpawnKeepsHealthy(n, peers, spawned);
    case Permit(peer, validFor, peers, spawned) =>
      var expiry := Expiry(n.now, validFor, cfg.maxInstant);
      var m := n.(log := n.log.(issued := n.log.issued[peer := expiry]));
      var p := OnPermit(n.pipe, peer, expiry);
      PermitKeepsHealthy(n, m, p);
      SpawnKeepsHealthy(m.(pipe := p), peers, spawned);
      assert Spawn(m.(pipe := p), p, spawned) == Spawn(m, p, spawned);
    case ReceiveAdmission => ReceiptKeepsHealthy(n);
    case Update(i, peers, spawned) =>
      SettleKeepsHealthy(n, i);
      if EffectOf(n, i).reassign {
        SpawnKeepsHealthy(Settle(n, i), peers, spawned);
      }
    case TaskEnds(i, outcome) => TaskEndKeepsHealthy(n, Apply(cfg, n, step), i);
    case StaleTimer => PipeSwapKeepsHealthy(n, n.(pipe := OnStaleTimer(n.pipe, n.now)));
    case WouldStore(peer) => PipeSwapKeepsHealthy(n, n.(pipe := OnWouldStore(n.pipe, peer, n.now)));
  }

  lemma HealthyStep(cfg: Config, n: Node, step: Step)
    requires ValidConfig(cfg) && TasksOk(n) && Healthy(n) && Timely(n) && Enabled(cfg, n, step)
    ensures Healthy(Apply(cfg, n, step))
  {
    if OffPipeline(step) {
      OffPipelineStep(cfg, n, step);
      PipeSwapKeepsHealthy(n, Apply(cfg, n, step));
    } else {
      PipelineKeepsHealthy(cfg, n, step);
    }
  }

  lemma FinalizedStays(cfg: Config, n: Node, step: Step, h: Hash)
    requires ValidConfig(cfg) && TasksOk(n) && Healthy(n) && Enabled(cfg, n, step) && !OffPipeline(step)
    requires n.pipe.current.Some? && h in n.pipe.current.value.chunks
    requires n.pipe.current.value.chunks[h].status.Finalized?
    ensures var m := Apply(cfg, n, step);
            if step.Update? && EffectOf(n, step.i).stored.Some?
            then AllFinalized(EffectOf(n, step.i).stored.value.chunks)
                 && EffectOf(n, step.i).stored.value.ticket == n.pipe.current.value.ticket
            else m.pipe.current.Some? && h in m.pipe.current.value.chunks
                 && m.pipe.current.value.chunks[h] == n.pipe.current.value.chunks[h]
  {
    match step
    case AssignTimer(peers, spawned) => SpawnSpares(n.pipe, n.now, n.freeSlots, peers, spawned, h);
    case Permit(peer, validFor, peers, spawned) =>
      SpawnSpares(OnPermit(n.pipe, peer, Expiry(n.now, validFor, cfg.maxInstant)),
                  n.now, n.freeSlots, peers, spawned, h);
    case Update(i, peers, spawned) =>
      UpdateSpares(n, i, h);
      if EffectOf(n, i).reassign && EffectOf(n, i).stored.None? {
        SpawnSpares(EffectOf(n, i).pipe, n.now, n.freeSlots, peers, spawned, h);
      }
    case _ =>
  }

  /** Finalized is never undone: while the current blob stays, its Finalized chunks stay as
      they are, and it leaves only when all of them are. */
  lemma FinalizedIsFinal(cfg: Config, n: Node, step: Step, h: Hash)
    requires ValidConfig(cfg) && TasksOk(n) && Healthy(n) && Enabled(cfg, n, step)
    requires n.pipe.current.Some? && h in n.pipe.current.value.chunks
    requires n.pipe.current.value.chunks[h].status.Finalized?
    ensures var m := Apply(cfg, n, step);
            if step.Update? && EffectOf(n, step.i).stored.Some?
            then AllFinalized(EffectOf(n, step.i).stored.value.chunks)
                 && EffectOf(n, step.i).stored.value.ticket == n.pipe.current.value.ticket
            else m.pipe.current.Some? && h in m.pipe.current.value.chunks
                 && m.pipe.current.value.chunks[h] == n.pipe.current.value.chunks[h]
  {
    if OffPipeline(step) {
      OffPipelineStep(cfg, n, step);
    } else {
      FinalizedStays(cfg, n, step, h);
    }
  }

  lemma UpdateSpares(n: Node, i: nat, h: Hash)
    requires TasksOk(n) && Healthy(n) && i < |n.tasks| && n.tasks[i].phase.Reported?
    requires n.pipe.current.Some? && h in n.pipe.current.value.chunks
    requires n.pipe.current.value.chunks[h].status.Finalized?
    ensures var e := EffectOf(n, i);
            if e.stored.Some?
            then AllFinalized(e.stored.value.chunks) && e.stored.value.ticket == n.pipe.current.value.ticket
            else e.pipe.current.Some? && h in e.pipe.current.value.chunks
                 && e.pipe.current.value.chunks[h] == n.pipe.current.value.chunks[h]
  {
    UpdateFindsItsChunk(n, i);
    assert h != n.tasks[i].hash;
  }

  lemma SpawnSpares(p: PipelineState, now: Instant, slots: nat, peers: seq<PeerId>, spawned: seq<Upload>, h: Hash)
    requires Assigns(p, now, slots, peers, spawned)
    requires p.current.Some? && h in p.current.value.chunks && !IsEligible(p.current.value.chunks[h], now)
    ensures h in AfterAssign(p, now, spawned).current.value.chunks
    ensures AfterAssign(p, now, spawned).current.value.chunks[h] == p.current.value.chunks[h]
  {
    RetargetEffect(p.current.value.chunks, now, spawned);
  }

  // ---------------------------------------------------------------- the work that remains

  function Unfinished(chunks: map<Hash, Chunk>): set<Hash> {
    set h | h in chunks && !chunks[h].status.Finalized?
  }

  function WorkIn(b: LocalBlob): nat {
    |Unfinished(b.chunks)|
  }

  /** Distinct chunks that still have to arrive somewhere. */
  function Remainder(p: PipelineState): nat {
    SumOf(p.pending, WorkIn) + if p.current.Some? then WorkIn(p.current.value) else 0
  }

  /** Every blob in the pipeline still has work. */
  ghost predicate Busy(p: PipelineState) {
    && (p.current.Some? ==> WorkIn(p.current.value) > 0)
    && forall k | 0 <= k < |p.pending| :: WorkIn(p.pending[k]) > 0
  }

  ghost predicate WorkOk(n: Node) {
    n.log.admitted == n.log.acked + Remainder(n.pipe) && Busy(n.pipe)
  }

  lemma BeginNextKeepsWork(p: PipelineState, now: Instant)
    ensures Remainder(BeginNextBlob(p, now)) == Remainder(p)
    ensures Busy(p) ==> Busy(BeginNextBlob(p, now))
  {
  }

  lemma SpawnKeepsUnfinished(p: PipelineState, now: Instant, slots: nat, peers: seq<PeerId>, spawned: seq<Upload>)
    requires Assigns(p, now, slots, peers, spawned) && p.current.Some?
    ensures Unfinished(AfterAssign(p, now, spawned).current.value.chunks) == Unfinished(p.current.value.chunks)
  {
    var before := p.current.value.chunks;
    var after := Retarget(before, now, spawned);
    RetargetEffect(before, now, spawned);
    forall h ensures h in Unfinished(after) <==> h in Unfinished(before) {
      if h in before {
        if exists k :: 0 <= k < |spawned| && spawned[k].hash == h {
        } else {
          assert after[h] == before[h];
        }
      }
    }
  }

  lemma SpawnKeepsWork(p: PipelineState, now: Instant, slots: nat, peers: seq<PeerId>, spawned: seq<Upload>)
    requires Assigns(p, now, slots, peers, spawned)
    ensures Remainder(AfterAssign(p, now, spawned)) == Remainder(p)
    ensures Busy(p) ==> Busy(AfterAssign(p, now, spawned))
  {
    if p.current.Some? {
      SpawnKeepsUnfinished(p, now, slots, peers, spawned);
    }
  }

  /** A new blob adds its distinct chunks, at least one. */
  lemma NewBlobAddsWork(p: PipelineState, b: AdmittedBlob, now: Instant)
    requires b.leaves != []
    ensures Remainder(OnNewBlob(p, b, now)) == Remainder(p) + |Collapse(b.leaves)|
    ensures Busy(p) ==> Busy(OnNewBlob(p, b, now))
  {
    var local := ToLocal(b, now);
    CollapseSize(b.leaves);
    assert Unfinished(local.chunks) == Collapse(b.leaves).Keys;
    assert WorkIn(local) == |Collapse(b.leaves)|;
    SumOfConcat(p.pending, [local], WorkIn);
    assert SumOf([local], WorkIn) == WorkIn(local) + SumOf([local][1..], WorkIn);
    BeginNextKeepsWork(AddLocalBlob(p, b, now), now);
  }

  /** An update to a chunk in flight: a failure changes nothing, a success takes exactly one
      chunk off. */
  lemma UpdateTakesOne(p: PipelineState, hash: Hash, status: ChunkUploadStatus, now: Instant)
    requires Busy(p)
    requires p.current.Some? && hash in p.current.value.chunks && p.current.value.chunks[hash].status.Inflight?
    ensures var e := OnUpdate(p, hash, status, now);
            && e.reassign == status.Finalized?
            && Remainder(p) == Remainder(e.pipe) + (if status.Finalized? then 1 else 0)
            && Busy(e.pipe)
  {
    var chunks := p.current.value.chunks;
    var after := chunks[hash := Chunk(chunks[hash].data, status, now)];
    if status.Finalized? {
      assert Unfinished(after) == Unfinished(chunks) - {hash};
      if AllFinalized(after) {
        assert Unfinished(after) == {};
        assert Unfinished(chunks) == {hash};
        BeginNextKeepsWork(p.(current := None), now);
      } else {
        var h :| h in after && !after[h].status.Finalized?;
        assert h in Unfinished(after);
        assert |Unfinished(after)| > 0;
      }
    } else {
      assert Unfinished(after) == Unfinished(chunks);
    }
  }

  lemma ReceiptAddsWork(cfg: Config, n: Node)
    requires ValidConfig(cfg) && RequestsOk(cfg, n) && QueueOk(cfg, n) && WorkOk(n) && n.admission != []
    ensures WorkOk(DoReceiveAdmission(n))
  {
    if n.admission[0].NewBlob? {
      var b := n.admission[0].blob;
      QueuedHasChunks(cfg, n, b);
      NewBlobAddsWork(n.pipe, b, n.now);
    }
  }

  lemma QueuedHasChunks(cfg: Config, n: Node, b: AdmittedBlob)
    requires ValidConfig(cfg) && RequestsOk(cfg, n) && AdmittedOk(cfg, n, b)
    ensures b.leaves != []
  {
    var q := n.requests[b.ticket];
    assert RequestOk(cfg, q);
    FinishIsSplit(cfg.hasher, cfg.size, q.chunker);
    assert |b.leaves| == Permits(cfg, q.declared) > 0;
  }

  lemma SettleTakesOne(n: Node, i: nat)
    requires TasksOk(n) && Healthy(n) && WorkOk(n) && IsNext(n, i)
    ensures WorkOk(Settle(n, i))
    ensures Settle(n, i).log.acked == n.log.acked + if n.tasks[i].phase.status.Finalized? then 1 else 0
    ensures Remainder(n.pipe) ==
            Remainder(Settle(n, i).pipe) + if n.tasks[i].phase.status.Finalized? then 1 else 0
  {
    UpdateFindsItsChunk(n, i);
    UpdateTakesOne(n.pipe, n.tasks[i].hash, n.tasks[i].phase.status, n.now);
  }

  lemma SpawnKeepsWorkOk(n: Node, p: PipelineState, peers: seq<PeerId>, spawned: seq<Upload>)
    requires WorkOk(n.(pipe := p)) && Assigns(p, n.now, n.freeSlots, peers, spawned) && |spawned| <= n.freeSlots
    ensures WorkOk(Spawn(n, p, spawned))
  {
    SpawnKeepsWork(p, n.now, n.freeSlots, peers, spawned);
  }

  lemma PermitKeepsWork(cfg: Config, n: Node, step: Step)
    requires ValidConfig(cfg) && WorkOk(n) && step.Permit? && Enabled(cfg, n, step)
    ensures WorkOk(Apply(cfg, n, step))
  {
    var expiry := Expiry(n.now, step.validFor, cfg.maxInstant);
    SpawnKeepsWorkOk(n.(log := n.log.(issued := n.log.issued[step.peer := expiry])),
                     OnPermit(n.pipe, step.peer, expiry), step.peers, step.spawned);
  }

  lemma UpdateKeepsWork(cfg: Config, n: Node, step: Step)
    requires ValidConfig(cfg) && TasksOk(n) && Healthy(n) && WorkOk(n) && step.Update? && Enabled(cfg, n, step)
    ensures WorkOk(Apply(cfg, n, step))
  {
    SettleTakesOne(n, step.i);
    if EffectOf(n, step.i).reassign {
      SpawnKeepsWorkOk(Settle(n, step.i), Settle(n, step.i).pipe, step.peers, step.spawned);
    }
  }

  lemma PipelineKeepsWork(cfg: Config, n: Node, step: Step)
    requires ValidConfig(cfg) && RequestsOk(cfg, n) && QueueOk(cfg, n) && TasksOk(n)
    requires Healthy(n) && WorkOk(n) && Enabled(cfg, n, step) && !OffPipeline(step)
    ensures WorkOk(Apply(cfg, n, step))
  {
    match step
    case ReceiveAdmission => ReceiptAddsWork(cfg, n);
    case AssignTimer(peers, spawned) => SpawnKeepsWorkOk(n, n.pipe, peers, spawned);
    case Permit(_, _, _, _) => PermitKeepsWork(cfg, n, step);
    case Update(_, _, _) => UpdateKeepsWork(cfg, n, step);
    case _ =>
  }

  lemma WorkStep(cfg: Config, n: Node, step: Step)
    requires ValidConfig(cfg) && RequestsOk(cfg, n) && QueueOk(cfg, n) && TasksOk(n)
    requires Healthy(n) && WorkOk(n) && Enabled(cfg, n, step)
    ensures WorkOk(Apply(cfg, n, step))
  {
    if OffPipeline(step) {
      OffPipelineStep(cfg, n, step);
    } else {
      PipelineKeepsWork(cfg, n, step);
    }
  }

  /** Nothing remains exactly when every blob that came in has been archived. */
  lemma NothingRemainsExactly(cfg: Config, n: Node)
    requires ValidConfig(cfg) && BlobsOk(cfg, n) && WorkOk(n)
    ensures n.log.admitted == n.log.acked <==> n.pipe.current.None? && n.pipe.pending == []
  {
  }
}
