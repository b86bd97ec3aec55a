/** Storage permits are pruned lazily and overwritten in place, and yet the peers a round of
    assignment may use are exactly those whose latest permit has not run out. */
module PermitTable {
  import opened Prelude
  import opened Coordinator
  import opened Node

  /** What the table still has is each peer's latest permit; what it lost had run out. */
  ghost predicate Lazily(permits: map<PeerId, Instant>, now: Instant, issued: map<PeerId, Instant>) {
    && (forall p | p in permits :: p in issued && permits[p] == issued[p])
    && (forall p | p in issued :: p in permits || issued[p] <= now)
  }

  ghost predicate PermitsOk(n: Node) {
    Lazily(n.pipe.permits, n.now, n.log.issued)
  }

  lemma PruningIsLazy(permits: map<PeerId, Instant>, now: Instant, issued: map<PeerId, Instant>)
    requires Lazily(permits, now, issued)
    ensures Lazily(Unexpired(permits, now), now, issued)
  {
  }

  lemma IssuingIsLazy(permits: map<PeerId, Instant>, now: Instant, issued: map<PeerId, Instant>,
                      peer: PeerId, expiry: Instant)
    requires Lazily(permits, now, issued)
    ensures Lazily(permits[peer := expiry], now, issued[peer := expiry])
  {
  }

  /** No event does more to the table than prune it, but for a new permit. */
  lemma StartingOnlyPrunes(p: PipelineState, now: Instant)
    ensures BeginNextBlob(p, now).permits in {p.permits, Unexpired(p.permits, now)}
  {
  }

  lemma UpdatesOnlyPrune(p: PipelineState, hash: Hash, status: ChunkUploadStatus, now: Instant)
    ensures OnUpdate(p, hash, status, now).pipe.permits in {p.permits, Unexpired(p.permits, now)}
  {
    StartingOnlyPrunes(p.(current := None), now);
  }

  lemma PipelineKeepsPermits(cfg: Config, n: Node, step: Step)
    requires ValidConfig(cfg) && PermitsOk(n) && Enabled(cfg, n, step) && !OffPipeline(step)
    ensures PermitsOk(Apply(cfg, n, step))
  {
    PruningIsLazy(n.pipe.permits, n.now, n.log.issued);
    match step
    case ReceiveAdmission =>
      if n.admission[0].NewBlob? {
        StartingOnlyPrunes(AddLocalBlob(n.pipe, n.admission[0].blob, n.now), n.now);
      }
    case Permit(peer, validFor, peers, spawned) =>
      IssuingIsLazy(n.pipe.permits, n.now, n.log.issued, peer, Expiry(n.now, validFor, cfg.maxInstant));
    case Update(i, peers, spawned) =>
      UpdatesOnlyPrune(n.pipe, n.tasks[i].hash, n.tasks[i].phase.status, n.now);
    case _ =>
  }

  lemma PermitsStep(cfg: Config, n: Node, step: Step)
    requires ValidConfig(cfg) && PermitsOk(n) && Enabled(cfg, n, step)
    ensures PermitsOk(Apply(cfg, n, step))
  {
    if OffPipeline(step) {
      OffPipelineStep(cfg, n, step);
    } else {
      PipelineKeepsPermits(cfg, n, step);
    }
  }

  lemma EligibleExactly(n: Node)
    requires PermitsOk(n)
    ensures EligiblePeers(n.pipe.permits, n.now) == set p | p in n.log.issued && n.log.issued[p] > n.now
  {
  }

  // ---------------------------------------------------------------- when the table is pruned

  /** The step makes a waiting blob current, or is a tick of the stale timer with a blob
      current. */
  predicate AsksForPermits(n: Node, step: Step) {
    match step
    case ReceiveAdmission => n.admission != [] && n.admission[0].NewBlob? && n.pipe.current.None?
    case Update(i, _, _) => IsNext(n, i) && EffectOf(n, i).stored.Some? && n.pipe.pending != []
    case StaleTimer => n.pipe.current.Some?
    case _ => false
  }

  lemma UpdatePrunes(p: PipelineState, hash: Hash, status: ChunkUploadStatus, now: Instant)
    ensures var e := OnUpdate(p, hash, status, now);
            if e.stored.Some? && p.pending != [] && p.hints != map[]
            then OnlyExpiredGone(p.permits, e.pipe.permits, now) else e.pipe.permits == p.permits
  {
  }

  lemma UpdateLeavesHints(p: PipelineState, hash: Hash, status: ChunkUploadStatus, now: Instant)
    ensures OnUpdate(p, hash, status, now).pipe.hints == p.hints
  {
  }

  /** Exactly then, and if a hint is left, expired permits go; otherwise only a new permit
      changes the table. */
  lemma PrunedExactly(cfg: Config, n: Node, step: Step)
    requires ValidConfig(cfg) && Enabled(cfg, n, step) && !step.Permit?
    ensures var m := Apply(cfg, n, step);
            if AsksForPermits(n, step) && m.pipe.hints != map[]
            then OnlyExpiredGone(n.pipe.permits, m.pipe.permits, n.now) else m.pipe.permits == n.pipe.permits
  {
    if OffPipeline(step) {
      OffPipelineStep(cfg, n, step);
    } else if step.Update? {
      UpdatePrunes(n.pipe, n.tasks[step.i].hash, n.tasks[step.i].phase.status, n.now);
      UpdateLeavesHints(n.pipe, n.tasks[step.i].hash, n.tasks[step.i].phase.status, n.now);
    }
  }
}
