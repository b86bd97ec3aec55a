/** What upload attempts carry and what their outcomes are worth, with no assumption on
    timing: every upload carries a genuine chunk, a chunk marked Finalized was really pushed,
    and so was every chunk of a blob that was reported as stored. */
module Attempts {
  import opened Prelude
  import opened Chunking
  import opened Coordinator
  import opened Node
  import opened Custody
  import opened Order
  import opened Budget
  import Transfer
  import Session

  // ---------------------------------------------------------------- what was pushed

  /** Pushes that returned Ok: honest receivers checked data with that hash. */
  ghost predicate PushesOk(cfg: Config, n: Node) {
    && (forall p, h | (p, h) in n.log.pushed && cfg.honest(p) :: exists d :: (p, h, d) in n.log.verified)
    && (forall p, h, d | (p, h, d) in n.log.verified :: cfg.honest(p) && cfg.hasher(d) == h && |d| <= cfg.size)
  }

  ghost predicate TaskOk(n: Node, t: Task) {
    && t.at <= n.now
    && match t.phase
       case Reported(Finalized(owner)) => owner == t.to && (owner, t.hash) in n.log.pushed
       case Reported(Inflight(_)) => false
       case _ => true
  }

  ghost predicate TasksOk(n: Node) {
    forall i | 0 <= i < |n.tasks| :: TaskOk(n, n.tasks[i])
  }

  /** A chunk marked Finalized was pushed to its owner. */
  ghost predicate ChunksPushed(n: Node, chunks: map<Hash, Chunk>) {
    forall h | h in chunks && chunks[h].status.Finalized? :: (chunks[h].status.owner, h) in n.log.pushed
  }

  ghost predicate CurrentPushed(n: Node, p: PipelineState) {
    p.current.Some? ==> ChunksPushed(n, p.current.value.chunks)
  }

  predicate PushedSomewhere(n: Node, h: Hash) {
    exists q | q in n.log.pushed :: q.1 == h
  }

  /** Every chunk of a blob reported as stored was pushed to some peer. */
  ghost predicate ReportedPushed(cfg: Config, n: Node) {
    forall t | t in n.log.done + UpdateTickets(n.toBridge) ::
      t < |n.requests| && forall k | 0 <= k < |LeavesOf(cfg, n, t)| :: PushedSomewhere(n, LeavesOf(cfg, n, t)[k].hash)
  }

  lemma NothingUnpushed(n: Node, m: Node)
    requires n.log.pushed <= m.log.pushed
    ensures forall h :: PushedSomewhere(n, h) ==> PushedSomewhere(m, h)
    ensures forall c :: ChunksPushed(n, c) ==> ChunksPushed(m, c)
  {
    forall h | PushedSomewhere(n, h) ensures PushedSomewhere(m, h) {
      var q :| q in n.log.pushed && q.1 == h;
      assert q in m.log.pushed;
    }
  }

  /** An honest receiver checked exactly what the upload carried. */
  lemma CheckedIsSent(cfg: Config, t: Task, session: Session.State<Transfer.PushResult>)
    requires MayAccept(cfg, t, session)
    ensures cfg.honest(t.to) ==>
              Checked(cfg, t, session) == {(t.to, t.hash, t.data)}
              && cfg.hasher(t.data) == t.hash && |t.data| <= cfg.size
    ensures !cfg.honest(t.to) ==> Checked(cfg, t, session) == {}
  {
    if cfg.honest(t.to) {
      Transfer.AcceptedMeansVerified(cfg.hasher, cfg.size, cfg.window, t.hash, t.data, session);
    }
  }

  lemma OkKeepsPushes(cfg: Config, n: Node, i: nat, session: Session.State<Transfer.PushResult>)
    requires PushesOk(cfg, n) && i < |n.tasks| && MayAccept(cfg, n.tasks[i], session)
    ensures PushesOk(cfg, DoTaskEnds(cfg, n, i, PushOk(session)))
  {
    var t := n.tasks[i];
    var m := DoTaskEnds(cfg, n, i, PushOk(session));
    CheckedIsSent(cfg, t, session);
    forall p, h | (p, h) in m.log.pushed && cfg.honest(p) ensures exists d :: (p, h, d) in m.log.verified {
      if (p, h) in n.log.pushed {
        var d :| (p, h, d) in n.log.verified;
        assert (p, h, d) in m.log.verified;
      } else {
        assert (t.to, t.hash, t.data) in m.log.verified;
      }
    }
  }

  lemma PushesElsewhere(cfg: Config, n: Node, step: Step)
    requires ValidConfig(cfg) && Enabled(cfg, n, step) && !(step.TaskEnds? && step.outcome.PushOk?)
    ensures Apply(cfg, n, step).log.pushed == n.log.pushed && Apply(cfg, n, step).log.verified == n.log.verified
  {
    if OffPipeline(step) {
      OffPipelineStep(cfg, n, step);
    }
  }

  lemma PushesStep(cfg: Config, n: Node, step: Step)
    requires ValidConfig(cfg) && PushesOk(cfg, n) && Enabled(cfg, n, step)
    ensures PushesOk(cfg, Apply(cfg, n, step))
    ensures n.log.pushed <= Apply(cfg, n, step).log.pushed
    ensures n.log.verified <= Apply(cfg, n, step).log.verified
  {
    if step.TaskEnds? && step.outcome.PushOk? {
      OkKeepsPushes(cfg, n, step.i, step.outcome.session);
    } else {
      PushesElsewhere(cfg, n, step);
    }
  }

  lemma SpawnKeepsTasks(n: Node, p: PipelineState, spawned: seq<Upload>)
    requires TasksOk(n) && |spawned| <= n.freeSlots
    ensures TasksOk(Spawn(n, p, spawned))
  {
    var m := Spawn(n, p, spawned);
    forall i | 0 <= i < |m.tasks| ensures TaskOk(m, m.tasks[i]) {
      if i < |n.tasks| {
        assert m.tasks[i] == n.tasks[i];
        assert TaskOk(n, n.tasks[i]);
      }
    }
  }

  lemma OthersKeepTasks(n: Node, m: Node)
    requires TasksOk(n) && n.log.pushed <= m.log.pushed && n.now <= m.now && |m.tasks| == |n.tasks|
    requires forall i | 0 <= i < |n.tasks| :: m.tasks[i] == n.tasks[i] || TaskOk(m, m.tasks[i])
    ensures TasksOk(m)
  {
    forall i | 0 <= i < |m.tasks| ensures TaskOk(m, m.tasks[i]) {
      assert TaskOk(n, n.tasks[i]);
    }
  }

  lemma PermitKeepsTasks(cfg: Config, n: Node, step: Step)
    requires ValidConfig(cfg) && TasksOk(n) && step.Permit? && Enabled(cfg, n, step)
    ensures TasksOk(Apply(cfg, n, step))
  {
    var expiry := Expiry(n.now, step.validFor, cfg.maxInstant);
    var m := n.(log := n.log.(issued := n.log.issued[step.peer := expiry]));
    OthersKeepTasks(n, m);
    SpawnKeepsTasks(m, OnPermit(n.pipe, step.peer, expiry), step.spawned);
  }

  lemma UpdateKeepsTasks(cfg: Config, n: Node, step: Step)
    requires ValidConfig(cfg) && TasksOk(n) && step.Update? && Enabled(cfg, n, step)
    ensures TasksOk(Apply(cfg, n, step))
  {
    var m := Settle(n, step.i);
    assert TaskOk(n, n.tasks[step.i]);
    OthersKeepTasks(n, m);
    if EffectOf(n, step.i).reassign {
      SpawnKeepsTasks(m, m.pipe, step.spawned);
    }
  }

  lemma EndKeepsTasks(cfg: Config, n: Node, step: Step)
    requires ValidConfig(cfg) && TasksOk(n) && step.TaskEnds? && Enabled(cfg, n, step)
    ensures TasksOk(Apply(cfg, n, step))
  {
    assert TaskOk(n, n.tasks[step.i]);
    OthersKeepTasks(n, Apply(cfg, n, step));
  }

  lemma TasksStep(cfg: Config, n: Node, step: Step)
    requires ValidConfig(cfg) && TasksOk(n) && Enabled(cfg, n, step)
    ensures TasksOk(Apply(cfg, n, step))
  {
    match step
    case AssignTimer(peers, spawned) => SpawnKeepsTasks(n, n.pipe, spawned);
    case Permit(_, _, _, _) => PermitKeepsTasks(cfg, n, step);
    case Update(_, _, _) => UpdateKeepsTasks(cfg, n, step);
    case TaskEnds(_, _) => EndKeepsTasks(cfg, n, step);
    case _ => OthersKeepTasks(n, Apply(cfg, n, step));
  }

  lemma SpawnKeepsPushed(n: Node, p: PipelineState, now: Instant, slots: nat, peers: seq<PeerId>, spawned: seq<Upload>)
    requires CurrentPushed(n, p) && Assigns(p, now, slots, peers, spawned)
    ensures CurrentPushed(n, AfterAssign(p, now, spawned))
  {
    if p.current.Some? {
      var before := p.current.value.chunks;
      var after := Retarget(before, now, spawned);
      RetargetEffect(before, now, spawned);
      forall h | h in after && after[h].status.Finalized? ensures (after[h].status.owner, h) in n.log.pushed {
        assert forall k | 0 <= k < |spawned| :: after[spawned[k].hash].status.Inflight?;
        assert after[h] == before[h];
      }
    }
  }

  /** A blob that starts has no Finalized chunk; a blob that is stored has only those. */
  lemma UpdateKeepsPushed(cfg: Config, n: Node, p: PipelineState, hash: Hash, status: ChunkUploadStatus, now: Instant)
    requires ValidConfig(cfg) && PipeOk(cfg, n, p) && CurrentPushed(n, p)
    requires status.Finalized? ==> (status.owner, hash) in n.log.pushed
    ensures var e := OnUpdate(p, hash, status, now);
            && CurrentPushed(n, e.pipe)
            && (e.stored.Some? ==> ChunksPushed(n, e.stored.value.chunks) && AllFinalized(e.stored.value.chunks))
  {
  }

  lemma NewBlobKeepsPushed(cfg: Config, n: Node, p: PipelineState, b: AdmittedBlob, now: Instant)
    requires ValidConfig(cfg) && PipeOk(cfg, n, p) && CurrentPushed(n, p)
    ensures CurrentPushed(n, OnNewBlob(p, b, now))
  {
  }

  lemma PipelineKeepsPushed(cfg: Config, n: Node, step: Step)
    requires ValidConfig(cfg) && PipeOk(cfg, n, n.pipe) && TasksOk(n) && PushesOk(cfg, n)
    requires CurrentPushed(n, n.pipe) && Enabled(cfg, n, step) && !OffPipeline(step)
    ensures CurrentPushed(Apply(cfg, n, step), Apply(cfg, n, step).pipe)
  {
    PushesStep(cfg, n, step);
    NothingUnpushed(n, Apply(cfg, n, step));
    match step
    case ReceiveAdmission =>
      if n.admission[0].NewBlob? {
        NewBlobKeepsPushed(cfg, n, n.pipe, n.admission[0].blob, n.now);
      }
    case AssignTimer(peers, spawned) => SpawnKeepsPushed(n, n.pipe, n.now, n.freeSlots, peers, spawned);
    case Permit(peer, validFor, peers, spawned) =>
      SpawnKeepsPushed(n, OnPermit(n.pipe, peer, Expiry(n.now, validFor, cfg.maxInstant)),
                       n.now, n.freeSlots, peers, spawned);
    case Update(i, peers, spawned) =>
      assert TaskOk(n, n.tasks[i]);
      UpdateKeepsPushed(cfg, n, n.pipe, n.tasks[i].hash, n.tasks[i].phase.status, n.now);
      if EffectOf(n, i).reassign {
        SpawnKeepsPushed(n, EffectOf(n, i).pipe, n.now, n.freeSlots, peers, spawned);
      }
    case _ =>
  }

  lemma CurrentPushedStep(cfg: Config, n: Node, step: Step)
    requires ValidConfig(cfg) && PipeOk(cfg, n, n.pipe) && TasksOk(n) && PushesOk(cfg, n)
    requires CurrentPushed(n, n.pipe) && Enabled(cfg, n, step)
    ensures CurrentPushed(Apply(cfg, n, step), Apply(cfg, n, step).pipe)
  {
    if OffPipeline(step) {
      OffPipelineStep(cfg, n, step);
    } else {
      PipelineKeepsPushed(cfg, n, step);
    }
  }

  lemma StoredBlobPushed(cfg: Config, n: Node, b: LocalBlob)
    requires ValidConfig(cfg) && LocalOk(cfg, n, b) && ChunksPushed(n, b.chunks) && AllFinalized(b.chunks)
    ensures forall k | 0 <= k < |LeavesOf(cfg, n, b.ticket)| :: PushedSomewhere(n, LeavesOf(cfg, n, b.ticket)[k].hash)
  {
    var leaves := LeavesOf(cfg, n, b.ticket);
    LeavesAreStored(leaves);
    forall k | 0 <= k < |leaves| ensures PushedSomewhere(n, leaves[k].hash) {
      var h := leaves[k].hash;
      assert h in b.chunks;
      assert (b.chunks[h].status.owner, h) in n.log.pushed;
    }
  }

  lemma ReportedCarriesOver(cfg: Config, n: Node, m: Node, t: nat)
    requires ValidConfig(cfg) && KeepsHandedOver(n, m) && n.log.pushed <= m.log.pushed
    requires t < |n.requests| && HandedOver(n.requests[t])
    requires forall k | 0 <= k < |LeavesOf(cfg, n, t)| :: PushedSomewhere(n, LeavesOf(cfg, n, t)[k].hash)
    ensures t < |m.requests|
    ensures forall k | 0 <= k < |LeavesOf(cfg, m, t)| :: PushedSomewhere(m, LeavesOf(cfg, m, t)[k].hash)
  {
    assert m.requests[t].(phase := Sent) == n.requests[t].(phase := Sent);
    assert m.requests[t].chunker == n.requests[t].chunker;
    assert LeavesOf(cfg, m, t) == LeavesOf(cfg, n, t);
    NothingUnpushed(n, m);
  }

  /** Which tickets count as reported after a step. */
  lemma ReportedTickets(cfg: Config, n: Node, step: Step, t: nat)
    requires ValidConfig(cfg) && Enabled(cfg, n, step)
    requires t in Apply(cfg, n, step).log.done + UpdateTickets(Apply(cfg, n, step).toBridge)
    ensures t in n.log.done + UpdateTickets(n.toBridge)
            || (step.Update? && EffectOf(n, step.i).stored.Some? && t == EffectOf(n, step.i).stored.value.ticket)
  {
    var m := Apply(cfg, n, step);
    if step.ReceiveStatus? {
      assert UpdateTickets(n.toBridge)[0] == n.toBridge[0].ticket;
      assert UpdateTickets(n.toBridge)[1..] == UpdateTickets(m.toBridge);
    } else if step.Update? {
      if EffectOf(n, step.i).stored.Some? {
        assert UpdateTickets(m.toBridge) == UpdateTickets(n.toBridge) + [EffectOf(n, step.i).stored.value.ticket];
      }
    } else {
      UpdatesElsewhere(cfg, n, step);
    }
  }

  lemma UpdatesElsewhere(cfg: Config, n: Node, step: Step)
    requires ValidConfig(cfg) && Enabled(cfg, n, step) && !step.Update? && !step.ReceiveStatus?
    ensures Apply(cfg, n, step).toBridge == n.toBridge && Apply(cfg, n, step).log.done == n.log.done
  {
  }

  /** A blob that is stored just now was pushed. */
  lemma StoredNowIsPushed(cfg: Config, n: Node, i: nat)
    requires ValidConfig(cfg) && PipeOk(cfg, n, n.pipe) && TasksOk(n) && CurrentPushed(n, n.pipe)
    requires i < |n.tasks| && n.tasks[i].phase.Reported? && EffectOf(n, i).stored.Some?
    ensures var t := EffectOf(n, i).stored.value.ticket;
            && t < |n.requests| && HandedOver(n.requests[t])
            && forall k | 0 <= k < |LeavesOf(cfg, n, t)| :: PushedSomewhere(n, LeavesOf(cfg, n, t)[k].hash)
  {
    var task := n.tasks[i];
    assert TaskOk(n, task);
    UpdateKeepsPipe(cfg, n, n.pipe, task.hash, task.phase.status, n.now);
    UpdateKeepsPushed(cfg, n, n.pipe, task.hash, task.phase.status, n.now);
    StoredBlobPushed(cfg, n, EffectOf(n, i).stored.value);
  }

  lemma ReportedStep(cfg: Config, n: Node, step: Step)
    requires ValidConfig(cfg) && BlobsOk(cfg, n) && TrailOk(n) && TasksOk(n) && PushesOk(cfg, n)
    requires CurrentPushed(n, n.pipe) && ReportedPushed(cfg, n) && Enabled(cfg, n, step)
    ensures ReportedPushed(cfg, Apply(cfg, n, step))
  {
    var m := Apply(cfg, n, step);
    PushesStep(cfg, n, step);
    StepKeepsHandedOver(cfg, n, step);
    FinalizedInOrder(n);
    forall t | t in m.log.done + UpdateTickets(m.toBridge)
      ensures t < |m.requests|
      ensures forall k | 0 <= k < |LeavesOf(cfg, m, t)| :: PushedSomewhere(m, LeavesOf(cfg, m, t)[k].hash)
    {
      ReportedTickets(cfg, n, step, t);
      if t in n.log.done + UpdateTickets(n.toBridge) {
        assert t in n.log.sent;
      } else {
        StoredNowIsPushed(cfg, n, step.i);
      }
      ReportedCarriesOver(cfg, n, m, t);
    }
  }

  // ---------------------------------------------------------------- the channel of updates

  /** Every update in the channel is that of an attempt that reported, and is there once. */
  ghost predicate InboxOk(n: Node) {
    && Distinct(n.inbox)
    && forall k | 0 <= k < |n.inbox| :: n.inbox[k] < |n.tasks| && n.tasks[n.inbox[k]].phase.Reported?
  }

  lemma SpawnKeepsInbox(n: Node, p: PipelineState, spawned: seq<Upload>)
    requires InboxOk(n) && |spawned| <= n.freeSlots
    ensures InboxOk(Spawn(n, p, spawned))
  {
  }

  lemma SettleKeepsInbox(n: Node, i: nat)
    requires InboxOk(n) && IsNext(n, i)
    ensures InboxOk(Settle(n, i))
  {
    var m := Settle(n, i);
    forall k | 0 <= k < |m.inbox| ensures m.inbox[k] < |m.tasks| && m.tasks[m.inbox[k]].phase.Reported? {
      assert m.inbox[k] == n.inbox[k + 1] != i;
    }
  }

  lemma PipelineKeepsInbox(cfg: Config, n: Node, step: Step)
    requires ValidConfig(cfg) && InboxOk(n) && Enabled(cfg, n, step) && !OffPipeline(step)
    ensures InboxOk(Apply(cfg, n, step))
  {
    match step
    case AssignTimer(peers, spawned) => SpawnKeepsInbox(n, n.pipe, spawned);
    case Permit(peer, validFor, peers, spawned) =>
      var expiry := Expiry(n.now, validFor, cfg.maxInstant);
      SpawnKeepsInbox(n.(log := n.log.(issued := n.log.issued[peer := expiry])),
                      OnPermit(n.pipe, peer, expiry), spawned);
    case Update(i, peers, spawned) =>
      SettleKeepsInbox(n, i);
      if EffectOf(n, i).reassign {
        SpawnKeepsInbox(Settle(n, i), Settle(n, i).pipe, spawned);
      }
    case _ =>
  }

  lemma InboxElsewhere(cfg: Config, n: Node, step: Step)
    requires ValidConfig(cfg) && Enabled(cfg, n, step) && OffPipeline(step)
    ensures Apply(cfg, n, step).inbox == n.inbox + if step.Post? then [step.i] else []
  {
  }

  lemma InboxStep(cfg: Config, n: Node, step: Step)
    requires ValidConfig(cfg) && InboxOk(n) && Enabled(cfg, n, step)
    ensures InboxOk(Apply(cfg, n, step))
  {
    if OffPipeline(step) {
      OffPipelineStep(cfg, n, step);
      InboxElsewhere(cfg, n, step);
    } else {
      PipelineKeepsInbox(cfg, n, step);
    }
  }

  // ---------------------------------------------------------------- what uploads carry

  /** Every task was given its chunk's own bytes. */
  ghost predicate CargoOk(cfg: Config, n: Node) {
    forall i | 0 <= i < |n.tasks| :: cfg.hasher(n.tasks[i].data) == n.tasks[i].hash && |n.tasks[i].data| <= cfg.size
  }

  lemma StoredChunkIsGenuine(cfg: Config, n: Node, b: LocalBlob, h: Hash)
    requires ValidConfig(cfg) && RequestsOk(cfg, n) && LocalOk(cfg, n, b) && h in b.chunks
    ensures cfg.hasher(b.chunks[h].data) == h && |b.chunks[h].data| <= cfg.size
  {
    var q := n.requests[b.ticket];
    assert RequestOk(cfg, q);
    FinishIsSplit(cfg.hasher, cfg.size, q.chunker);
    var k := CollapseOrigin(LeavesOf(cfg, n, b.ticket), h);
  }

  lemma SpawnedCargo(cfg: Config, n: Node, p: PipelineState, slots: nat,
                     peers: seq<PeerId>, spawned: seq<Upload>, k: nat)
    requires ValidConfig(cfg) && RequestsOk(cfg, n) && PipeOk(cfg, n, p)
    requires Assigns(p, n.now, slots, peers, spawned) && k < |spawned|
    ensures cfg.hasher(spawned[k].data) == spawned[k].hash && |spawned[k].data| <= cfg.size
  {
    StoredChunkIsGenuine(cfg, n, p.current.value, spawned[k].hash);
  }

  lemma SpawnKeepsCargo(cfg: Config, n: Node, p: PipelineState, slots: nat, peers: seq<PeerId>, spawned: seq<Upload>)
    requires ValidConfig(cfg) && RequestsOk(cfg, n) && PipeOk(cfg, n, p) && CargoOk(cfg, n)
    requires Assigns(p, n.now, slots, peers, spawned) && |spawned| <= n.freeSlots
    ensures CargoOk(cfg, Spawn(n, p, spawned))
  {
    var m := Spawn(n, p, spawned);
    forall i | 0 <= i < |m.tasks|
      ensures cfg.hasher(m.tasks[i].data) == m.tasks[i].hash && |m.tasks[i].data| <= cfg.size
    {
      if i < |n.tasks| {
        assert m.tasks[i] == n.tasks[i];
      } else {
        SpawnedCargo(cfg, n, p, slots, peers, spawned, i - |n.tasks|);
      }
    }
  }

  lemma SettleKeepsCargo(cfg: Config, n: Node, i: nat)
    requires ValidConfig(cfg) && RequestsOk(cfg, n) && PipeOk(cfg, n, n.pipe) && CargoOk(cfg, n)
    requires IsNext(n, i)
    ensures RequestsOk(cfg, Settle(n, i)) && CargoOk(cfg, Settle(n, i))
    ensures PipeOk(cfg, Settle(n, i), Settle(n, i).pipe)
  {
    UpdateKeepsPipe(cfg, n, n.pipe, n.tasks[i].hash, n.tasks[i].phase.status, n.now);
    BlobsCarryOver(cfg, n, Settle(n, i));
  }

  lemma PermitKeepsCargo(cfg: Config, n: Node, step: Step)
    requires ValidConfig(cfg) && RequestsOk(cfg, n) && PipeOk(cfg, n, n.pipe) && CargoOk(cfg, n)
    requires step.Permit? && Enabled(cfg, n, step)
    ensures CargoOk(cfg, Apply(cfg, n, step))
  {
    var p := OnPermit(n.pipe, step.peer, Expiry(n.now, step.validFor, cfg.maxInstant));
    SpawnKeepsCargo(cfg, n, p, n.freeSlots, step.peers, step.spawned);
  }

  lemma UpdateKeepsCargo(cfg: Config, n: Node, step: Step)
    requires ValidConfig(cfg) && RequestsOk(cfg, n) && PipeOk(cfg, n, n.pipe) && CargoOk(cfg, n)
    requires step.Update? && Enabled(cfg, n, step)
    ensures CargoOk(cfg, Apply(cfg, n, step))
  {
    SettleKeepsCargo(cfg, n, step.i);
    if EffectOf(n, step.i).reassign {
      SpawnKeepsCargo(cfg, Settle(n, step.i), Settle(n, step.i).pipe, n.freeSlots, step.peers, step.spawned);
    }
  }

  lemma PipelineKeepsCargo(cfg: Config, n: Node, step: Step)
    requires ValidConfig(cfg) && RequestsOk(cfg, n) && PipeOk(cfg, n, n.pipe) && CargoOk(cfg, n)
    requires Enabled(cfg, n, step) && !OffPipeline(step)
    ensures CargoOk(cfg, Apply(cfg, n, step))
  {
    match step
    case AssignTimer(peers, spawned) => SpawnKeepsCargo(cfg, n, n.pipe, n.freeSlots, peers, spawned);
    case Permit(_, _, _, _) => PermitKeepsCargo(cfg, n, step);
    case Update(_, _, _) => UpdateKeepsCargo(cfg, n, step);
    case _ =>
  }

  lemma CargoStep(cfg: Config, n: Node, step: Step)
    requires ValidConfig(cfg) && RequestsOk(cfg, n) && PipeOk(cfg, n, n.pipe) && CargoOk(cfg, n)
    requires Enabled(cfg, n, step)
    ensures CargoOk(cfg, Apply(cfg, n, step))
  {
    if OffPipeline(step) {
      OffPipelineStep(cfg, n, step);
    } else {
      PipelineKeepsCargo(cfg, n, step);
    }
  }

  // ---------------------------------------------------------------- bytes that uploads hold

  /** The copy of its chunk that a running upload holds. */
  function UploadBytes(t: Task): nat {
    if t.phase.Running? then |t.data| else 0
  }

  lemma {:induction false} BytesBySlots(tasks: seq<Task>, size: nat)
    requires forall i | 0 <= i < |tasks| :: |tasks[i].data| <= size
    ensures SumOf(tasks, UploadBytes) <= SumOf(tasks, SlotOf) * size
  {
    if tasks != [] {
      BytesBySlots(tasks[1..], size);
      assert SumOf(tasks, SlotOf) * size == SlotOf(tasks[0]) * size + SumOf(tasks[1..], SlotOf) * size;
    }
  }

  lemma UploadsWithinSlots(cfg: Config, n: Node)
    requires CargoOk(cfg, n) && SlotsOk(n)
    ensures SumOf(n.tasks, UploadBytes) <= UPLOAD_SLOTS * cfg.size
  {
    BytesBySlots(n.tasks, cfg.size);
    MorePermitsMoreBytes(SumOf(n.tasks, SlotOf), UPLOAD_SLOTS, cfg.size);
  }
}
