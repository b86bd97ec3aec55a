/** Storage provider hints over whole runs: a hint is the last time its peer was heard, it
    lasts five minutes at least, and the next tick of the stale timer ends it after that. */
module Hints {
  import opened Prelude
  import opened Coordinator
  import opened Node
  import opened PermitTable

  /** When `peer` last said that it would store. */
  ghost function LastHeard(cfg: Config, steps: seq<Step>, peer: PeerId): Option<Instant>
    requires ValidConfig(cfg) && Run(cfg, steps).Some?
  {
    if steps == [] then None else
    var front, step := steps[..|steps| - 1], steps[|steps| - 1];
    if step == WouldStore(peer) then Some(Run(cfg, front).value.now) else LastHeard(cfg, front, peer)
  }

  /** A tick ends the hints that are five minutes old, and no others. */
  lemma StaleHintsEnd(p: PipelineState, now: Instant, peer: PeerId)
    ensures var h, h' := p.hints, OnStaleTimer(p, now).hints;
            && (peer in h' <==> peer in h && now < h[peer] + 300_000)
            && (peer in h' ==> h'[peer] == h[peer])
  {
  }

  /** No other event touches the hints. */
  lemma HintsElsewhere(cfg: Config, n: Node, step: Step)
    requires ValidConfig(cfg) && Enabled(cfg, n, step) && !step.WouldStore? && !step.StaleTimer?
    ensures Apply(cfg, n, step).pipe.hints == n.pipe.hints && Apply(cfg, n, step).now >= n.now
  {
    if OffPipeline(step) {
      OffPipelineStep(cfg, n, step);
    } else if step.Update? {
      UpdateLeavesHints(n.pipe, n.tasks[step.i].hash, n.tasks[step.i].phase.status, n.now);
    }
  }

  /** What a step does to the hint of one peer. */
  lemma HintStep(cfg: Config, n: Node, step: Step, peer: PeerId)
    requires ValidConfig(cfg) && Enabled(cfg, n, step)
    ensures var m := Apply(cfg, n, step);
            var h, h' := n.pipe.hints, m.pipe.hints;
            && m.now >= n.now
            && if step == WouldStore(peer) then peer in h' && h'[peer] == n.now
               else (peer in h' ==> peer in h && h'[peer] == h[peer])
                    && (peer in h && n.now < h[peer] + 300_000 ==> peer in h')
                    && (step.StaleTimer? && peer in h' ==> m.now < h'[peer] + 300_000)
  {
    match step
    case WouldStore(p) =>
    case StaleTimer => StaleHintsEnd(n.pipe, n.now, peer);
    case _ => HintsElsewhere(cfg, n, step);
  }

  /** In every run, every hint is the time its peer was last heard, and every peer heard
      less than five minutes ago has one. A tick of the stale timer leaves no other. */
  lemma {:induction false} HintsAreRecent(cfg: Config, steps: seq<Step>, peer: PeerId)
    requires ValidConfig(cfg) && Run(cfg, steps).Some?
    ensures var n := Run(cfg, steps).value;
            var heard := LastHeard(cfg, steps, peer);
            && (peer in n.pipe.hints ==> heard == Some(n.pipe.hints[peer]))
            && (heard.Some? && n.now < heard.value + 300_000 ==> peer in n.pipe.hints)
            && (steps != [] && steps[|steps| - 1].StaleTimer? && peer in n.pipe.hints ==>
                  n.now < n.pipe.hints[peer] + 300_000)
  {
    if steps != [] {
      var last := |steps| - 1;
      HintsAreRecent(cfg, steps[..last], peer);
      HintStep(cfg, Run(cfg, steps[..last]).value, steps[last], peer);
    }
  }
}
