/** Who has what: every request's bytes and permits, and every blob on its way, from the
    channel to the pipeline, as the chunks of the request it came from. These hold in every
    reachable state, whatever the timing. */
module Custody {
  import opened Prelude
  import opened Chunking
  import opened Coordinator
  import opened Node
  import Bridge

  // ---------------------------------------------------------------- requests

  predicate HandedOver(q: Request) {
    q.phase.Sent? || q.phase.Committed?
  }

  ghost predicate RequestOk(cfg: Config, q: Request)
    requires ValidConfig(cfg)
  {
    && Bridge.Admissible(q.declared, cfg.size)
    && cfg.canon(q.rawId) == Some(q.key)
    && Chunking.Valid(cfg.hasher, cfg.size, q.chunker)
    && Content(q.chunker) == q.body
    && |q.body| <= q.declared
    && (HandedOver(q) ==> |q.body| == q.declared)
    && q.held == (if q.phase.Streaming? then Permits(cfg, q.declared) else 0)
  }

  ghost predicate RequestsOk(cfg: Config, n: Node)
    requires ValidConfig(cfg)
  {
    forall r | 0 <= r < |n.requests| :: RequestOk(cfg, n.requests[r])
  }

  lemma FreshRequestOk(cfg: Config, id: string, declared: nat)
    requires ValidConfig(cfg) && Bridge.Admissible(declared, cfg.size) && cfg.canon(id).Some?
    ensures RequestOk(cfg, Request(id, cfg.canon(id).value, declared, Reserved, 0, EMPTY, []))
  {
    assert Concat(DataOf(EMPTY.chunks)) == [];
  }

  lemma FedRequestOk(cfg: Config, q: Request, data: Bytes)
    requires ValidConfig(cfg) && RequestOk(cfg, q) && q.phase.Streaming? && |q.body| + |data| <= q.declared
    ensures RequestOk(cfg, q.(chunker := Feed(cfg.hasher, cfg.size, q.chunker, data), body := q.body + data))
  {
    FeedKeeps(cfg.hasher, cfg.size, q.chunker, data);
  }

  lemma MovedRequestOk(cfg: Config, q: Request, phase: Phase, held: nat)
    requires ValidConfig(cfg) && RequestOk(cfg, q)
    requires phase.Sent? || phase.Committed? ==> |q.body| == q.declared
    requires held == if phase.Streaming? then Permits(cfg, q.declared) else 0
    ensures RequestOk(cfg, q.(phase := phase, held := held))
  {
  }

  lemma RequestsStep(cfg: Config, n: Node, step: Step)
    requires ValidConfig(cfg) && RequestsOk(cfg, n) && Enabled(cfg, n, step)
    ensures RequestsOk(cfg, Apply(cfg, n, step))
  {
    match step
    case Arrive(id, declared) => FreshRequestOk(cfg, id, declared);
    case Acquire(r) => MovedRequestOk(cfg, n.requests[r], Streaming, Permits(cfg, n.requests[r].declared));
    case Frame(r, data) => FedRequestOk(cfg, n.requests[r], data);
    case Send(r) => MovedRequestOk(cfg, n.requests[r], Sent, 0);
    case Commit(r) => MovedRequestOk(cfg, n.requests[r], Committed, 0);
    case ReturnPermits(r) => MovedRequestOk(cfg, n.requests[r], Unwinding, 0);
    case DropReservation(r) => MovedRequestOk(cfg, n.requests[r], Failed, 0);
    case _ =>
  }

  /** What was handed over under a ticket: the chunks of that request's body. */
  function LeavesOf(cfg: Config, n: Node, ticket: nat): seq<Leaf>
    requires ticket < |n.requests|
  {
    Finish(cfg.hasher, n.requests[ticket].chunker)
  }

  // ---------------------------------------------------------------- blobs

  ghost predicate Origin(cfg: Config, n: Node, ticket: nat, id: string, allowance: nat)
    requires ValidConfig(cfg)
  {
    && ticket < |n.requests| && HandedOver(n.requests[ticket])
    && id == n.requests[ticket].rawId
    && allowance == Permits(cfg, n.requests[ticket].declared)
  }

  ghost predicate AdmittedOk(cfg: Config, n: Node, b: AdmittedBlob)
    requires ValidConfig(cfg)
  {
    Origin(cfg, n, b.ticket, b.id, b.allowance) && b.leaves == LeavesOf(cfg, n, b.ticket)
  }

  ghost predicate LocalOk(cfg: Config, n: Node, b: LocalBlob)
    requires ValidConfig(cfg)
  {
    && Origin(cfg, n, b.ticket, b.id, b.allowance)
    && b.leaves == HashesOf(LeavesOf(cfg, n, b.ticket))
    && b.chunks.Keys == Collapse(LeavesOf(cfg, n, b.ticket)).Keys
    && forall h | h in b.chunks :: b.chunks[h].data == Collapse(LeavesOf(cfg, n, b.ticket))[h]
  }

  ghost predicate QueueOk(cfg: Config, n: Node)
    requires ValidConfig(cfg)
  {
    forall k | 0 <= k < |n.admission| && n.admission[k].NewBlob? :: AdmittedOk(cfg, n, n.admission[k].blob)
  }

  ghost predicate PipeOk(cfg: Config, n: Node, p: PipelineState)
    requires ValidConfig(cfg)
  {
    && (p.current.Some? ==> LocalOk(cfg, n, p.current.value))
    && (p.current.None? ==> p.pending == [])
    && (forall k | 0 <= k < |p.pending| :: LocalOk(cfg, n, p.pending[k]))
    && (forall k, h | 0 <= k < |p.pending| && h in p.pending[k].chunks :: p.pending[k].chunks[h].status.Pending?)
  }

  ghost predicate BlobsOk(cfg: Config, n: Node)
    requires ValidConfig(cfg)
  {
    QueueOk(cfg, n) && PipeOk(cfg, n, n.pipe)
  }

  /** Requests that were handed over stay as they are. */
  ghost predicate KeepsHandedOver(n: Node, m: Node) {
    && |n.requests| <= |m.requests|
    && forall r | 0 <= r < |n.requests| && HandedOver(n.requests[r]) ::
         HandedOver(m.requests[r])
         && m.requests[r].(phase := Sent) == n.requests[r].(phase := Sent)
  }

  lemma StepKeepsHandedOver(cfg: Config, n: Node, step: Step)
    requires ValidConfig(cfg) && Enabled(cfg, n, step)
    ensures KeepsHandedOver(n, Apply(cfg, n, step))
  {
  }

  lemma BlobsCarryOver(cfg: Config, n: Node, m: Node)
    requires ValidConfig(cfg) && KeepsHandedOver(n, m)
    ensures forall b :: AdmittedOk(cfg, n, b) ==> AdmittedOk(cfg, m, b)
    ensures forall b :: LocalOk(cfg, n, b) ==> LocalOk(cfg, m, b)
    ensures forall p :: PipeOk(cfg, n, p) ==> PipeOk(cfg, m, p)
  {
    forall t | 0 <= t < |n.requests| && HandedOver(n.requests[t])
      ensures LeavesOf(cfg, m, t) == LeavesOf(cfg, n, t)
      ensures m.requests[t].rawId == n.requests[t].rawId && m.requests[t].declared == n.requests[t].declared
    {
      assert m.requests[t].(phase := Sent) == n.requests[t].(phase := Sent);
    }
    forall b | AdmittedOk(cfg, n, b) ensures AdmittedOk(cfg, m, b) {
      assert LeavesOf(cfg, m, b.ticket) == LeavesOf(cfg, n, b.ticket);
    }
    forall b | LocalOk(cfg, n, b) ensures LocalOk(cfg, m, b) {
      assert LeavesOf(cfg, m, b.ticket) == LeavesOf(cfg, n, b.ticket);
    }
  }

  lemma SpawnKeepsPipe(cfg: Config, n: Node, p: PipelineState, now: Instant, slots: nat,
                       peers: seq<PeerId>, spawned: seq<Upload>)
    requires ValidConfig(cfg) && PipeOk(cfg, n, p) && Assigns(p, now, slots, peers, spawned)
    ensures PipeOk(cfg, n, AfterAssign(p, now, spawned))
  {
    if p.current.Some? {
      var before := p.current.value.chunks;
      RetargetEffect(before, now, spawned);
      forall h | h in before ensures Retarget(before, now, spawned)[h].data == before[h].data {
        if exists k :: 0 <= k < |spawned| && spawned[k].hash == h {
        } else {
          assert Retarget(before, now, spawned)[h] == before[h];
        }
      }
    }
  }

  lemma BeginNextKeepsPipe(cfg: Config, n: Node, p: PipelineState, now: Instant)
    requires ValidConfig(cfg) && PipeOk(cfg, n, p.(current := None, pending := []))
    requires p.current.Some? ==> LocalOk(cfg, n, p.current.value)
    requires forall k | 0 <= k < |p.pending| :: LocalOk(cfg, n, p.pending[k])
    requires forall k, h | 0 <= k < |p.pending| && h in p.pending[k].chunks :: p.pending[k].chunks[h].status.Pending?
    ensures PipeOk(cfg, n, BeginNextBlob(p, now))
  {
  }

  lemma UpdateKeepsPipe(cfg: Config, n: Node, p: PipelineState, hash: Hash, status: ChunkUploadStatus, now: Instant)
    requires ValidConfig(cfg) && PipeOk(cfg, n, p)
    ensures PipeOk(cfg, n, OnUpdate(p, hash, status, now).pipe)
    ensures var e := OnUpdate(p, hash, status, now);
            e.stored.Some? ==> LocalOk(cfg, n, e.stored.value)
  {
    if p.current.Some? && hash in p.current.value.chunks {
      var chunks := p.current.value.chunks;
      var blob := p.current.value.(chunks := chunks[hash := Chunk(chunks[hash].data, status, now)]);
      assert blob.chunks.Keys == chunks.Keys;
      assert LocalOk(cfg, n, blob);
      BeginNextKeepsPipe(cfg, n, p.(current := None), now);
    }
  }

  lemma NewBlobKeepsPipe(cfg: Config, n: Node, p: PipelineState, b: AdmittedBlob, now: Instant)
    requires ValidConfig(cfg) && PipeOk(cfg, n, p) && AdmittedOk(cfg, n, b)
    ensures PipeOk(cfg, n, OnNewBlob(p, b, now))
  {
    assert LocalOk(cfg, n, ToLocal(b, now));
    BeginNextKeepsPipe(cfg, n, AddLocalBlob(p, b, now), now);
  }

  /** What the coordinator does. */
  lemma PipelineKeepsPipe(cfg: Config, n: Node, step: Step)
    requires ValidConfig(cfg) && BlobsOk(cfg, n) && Enabled(cfg, n, step) && !OffPipeline(step)
    ensures PipeOk(cfg, n, Apply(cfg, n, step).pipe)
  {
    match step
    case ReceiveAdmission =>
      if n.admission[0].NewBlob? {
        NewBlobKeepsPipe(cfg, n, n.pipe, n.admission[0].blob, n.now);
      }
    case AssignTimer(peers, spawned) => SpawnKeepsPipe(cfg, n, n.pipe, n.now, n.freeSlots, peers, spawned);
    case Permit(peer, validFor, peers, spawned) =>
      var p := OnPermit(n.pipe, peer, Expiry(n.now, validFor, cfg.maxInstant));
      SpawnKeepsPipe(cfg, n, p, n.now, n.freeSlots, peers, spawned);
    case Update(i, peers, spawned) =>
      UpdateKeepsPipe(cfg, n, n.pipe, n.tasks[i].hash, n.tasks[i].phase.status, n.now);
      if EffectOf(n, i).reassign {
        SpawnKeepsPipe(cfg, n, EffectOf(n, i).pipe, n.now, n.freeSlots, peers, spawned);
      }
    case _ =>
  }

  /** What is in the channel was there before, or has just been handed over. */
  lemma QueueGrows(cfg: Config, n: Node, step: Step)
    requires ValidConfig(cfg) && QueueOk(cfg, n) && Enabled(cfg, n, step)
    ensures var q := Apply(cfg, n, step).admission;
            forall k | 0 <= k < |q| && q[k].NewBlob? ::
              AdmittedOk(cfg, n, q[k].blob) || (step.Send? && q[k].blob == Handed(cfg, n, step.r))
  {
  }

  lemma BlobsStep(cfg: Config, n: Node, step: Step)
    requires ValidConfig(cfg) && RequestsOk(cfg, n) && BlobsOk(cfg, n) && Enabled(cfg, n, step)
    ensures BlobsOk(cfg, Apply(cfg, n, step))
  {
    var m := Apply(cfg, n, step);
    StepKeepsHandedOver(cfg, n, step);
    BlobsCarryOver(cfg, n, m);
    QueueGrows(cfg, n, step);
    if step.Send? {
      assert AdmittedOk(cfg, m, Handed(cfg, n, step.r));
    }
    if OffPipeline(step) {
      OffPipelineStep(cfg, n, step);
    } else {
      PipelineKeepsPipe(cfg, n, step);
    }
  }
}
