/** How upload tasks end and what of it reaches the coordinator: a task that is cut off says
    nothing, every update tells of a push that really returned, and an update that finds no
    chunk does nothing. */
module Reports {
  import opened Prelude
  import opened Coordinator
  import opened Node
  import opened Attempts
  import opened Finality
  import opened Theorems
  import Bridge

  // ---------------------------------------------------------------- the end of a task

  /** A running task may be cut off exactly from 30 seconds after its assignment. */
  lemma ExpiresExactly(cfg: Config, steps: seq<Step>, i: nat)
    requires ValidConfig(cfg) && Run(cfg, steps).Some?
    ensures var n := Run(cfg, steps).value;
            Enabled(cfg, n, TaskEnds(i, Expired)) <==>
              i < |n.tasks| && n.tasks[i].phase.Running? && n.now >= n.tasks[i].at + 30_000
  {
    AlwaysTasksOk(cfg, steps);
    var n := Run(cfg, steps).value;
    if i < |n.tasks| {
      assert TaskOk(n, n.tasks[i]);
    }
  }

  /** What is over stays over. */
  lemma GoneStays(cfg: Config, n: Node, step: Step, i: nat)
    requires ValidConfig(cfg) && Enabled(cfg, n, step) && i < |n.tasks| && n.tasks[i].phase.Gone?
    ensures i < |Apply(cfg, n, step).tasks| && Apply(cfg, n, step).tasks[i].phase.Gone?
  {
    if OffPipeline(step) {
      OffPipelineStep(cfg, n, step);
    }
  }

  lemma {:induction false} GoneForGood(cfg: Config, steps: seq<Step>, more: seq<Step>, i: nat)
    requires ValidConfig(cfg) && Run(cfg, steps).Some? && Run(cfg, steps + more).Some?
    requires i < |Run(cfg, steps).value.tasks| && Run(cfg, steps).value.tasks[i].phase.Gone?
    ensures i < |Run(cfg, steps + more).value.tasks| && Run(cfg, steps + more).value.tasks[i].phase.Gone?
  {
    if more == [] {
      assert steps + more == steps;
    } else {
      var last := |more| - 1;
      assert steps + more == (steps + more[..last]) + [more[last]];
      RunSnoc(cfg, steps + more[..last], more[last]);
      GoneForGood(cfg, steps, more[..last], i);
      GoneStays(cfg, Run(cfg, steps + more[..last]).value, more[last], i);
    }
  }

  /** A task that is cut off gives its slot back and is never heard of: whatever follows, it is
      over, and no update of it is ever in the channel. */
  lemma TimeoutsAreSilent(cfg: Config, steps: seq<Step>, i: nat, more: seq<Step>)
    requires ValidConfig(cfg) && Run(cfg, steps + [TaskEnds(i, Expired)] + more).Some?
    ensures Run(cfg, steps).Some? && Run(cfg, steps + [TaskEnds(i, Expired)]).Some?
    ensures Run(cfg, steps + [TaskEnds(i, Expired)]).value.freeSlots == Run(cfg, steps).value.freeSlots + 1
    ensures var m := Run(cfg, steps + [TaskEnds(i, Expired)] + more).value;
            i < |m.tasks| && m.tasks[i].phase.Gone? && i !in m.inbox
  {
    var cut := steps + [TaskEnds(i, Expired)];
    RunPrefix(cfg, cut, more);
    RunSnoc(cfg, steps, TaskEnds(i, Expired));
    GoneForGood(cfg, cut, more, i);
    AlwaysTasksOk(cfg, cut + more);
  }

  /** The task ended this way, in some step. */
  ghost predicate EndedWith(steps: seq<Step>, i: nat, status: ChunkUploadStatus) {
    exists j :: 0 <= j < |steps| && steps[j].TaskEnds? && steps[j].i == i
                && (if status.Finalized? then steps[j].outcome.PushOk? else steps[j].outcome.PushErr?)
  }

  lemma ReportsArise(cfg: Config, n: Node, step: Step, i: nat)
    requires ValidConfig(cfg) && Enabled(cfg, n, step)
    requires i < |Apply(cfg, n, step).tasks| && Apply(cfg, n, step).tasks[i].phase.Reported?
    ensures var phase := Apply(cfg, n, step).tasks[i].phase;
            || (i < |n.tasks| && n.tasks[i].phase == phase)
            || (step.TaskEnds? && step.i == i && i < |n.tasks|
                && match step.outcome
                   case PushOk(_) => phase == Reported(Finalized(n.tasks[i].to))
                   case PushErr => phase == Reported(Pending)
                   case Expired => false)
  {
    if OffPipeline(step) {
      OffPipelineStep(cfg, n, step);
    }
  }

  /** Every update, sent or not, tells what happened: success, of a push that returned Ok, and
      failure, of a push that returned an error. */
  lemma {:induction false} ReportsAreTrue(cfg: Config, steps: seq<Step>, i: nat)
    requires ValidConfig(cfg) && Run(cfg, steps).Some?
    requires var n := Run(cfg, steps).value; i < |n.tasks| && n.tasks[i].phase.Reported?
    ensures var n := Run(cfg, steps).value;
            && EndedWith(steps, i, n.tasks[i].phase.status)
            && n.tasks[i].phase.status in {Pending, Finalized(n.tasks[i].to)}
  {
    AlwaysTasksOk(cfg, steps);
    var n := Run(cfg, steps).value;
    assert TaskOk(n, n.tasks[i]);
    if steps != [] {
      var last := |steps| - 1;
      var b := Run(cfg, steps[..last]).value;
      ReportsArise(cfg, b, steps[last], i);
      if i < |b.tasks| && b.tasks[i].phase == n.tasks[i].phase {
        ReportsAreTrue(cfg, steps[..last], i);
        var j :| 0 <= j < last && steps[..last][j].TaskEnds? && steps[..last][j].i == i
                 && (if n.tasks[i].phase.status.Finalized? then steps[..last][j].outcome.PushOk?
                     else steps[..last][j].outcome.PushErr?);
        assert steps[j] == steps[..last][j];
      }
    }
  }

  // ---------------------------------------------------------------- updates

  /** An update whose chunk the current blob does not have, or that finds no blob, is taken from
      the channel, and that is all. */
  lemma StaleUpdatesDoNothing(cfg: Config, steps: seq<Step>, step: Step)
    requires ValidConfig(cfg) && step.Update? && Run(cfg, steps + [step]).Some?
    requires Run(cfg, steps).Some? && step.i < |Run(cfg, steps).value.tasks|
    requires var n := Run(cfg, steps).value;
             n.pipe.current.None? || n.tasks[step.i].hash !in n.pipe.current.value.chunks
    ensures var n := Run(cfg, steps).value;
            && n.inbox != []
            && Run(cfg, steps + [step]).value ==
               n.(inbox := n.inbox[1..], tasks := n.tasks[step.i := n.tasks[step.i].(phase := Gone)])
  {
    RunSnoc(cfg, steps, step);
  }

  /** The next update can be handled at once, unless it completes the blob and the bridge still
      has 128 reports to read. */
  lemma NextUpdateWaitsExactly(cfg: Config, n: Node, i: nat)
    requires ValidConfig(cfg) && IsNext(n, i)
    ensures (exists step: Step :: step.Update? && step.i == i && Enabled(cfg, n, step))
            <==> !(EffectOf(n, i).stored.Some? && |n.toBridge| >= 128)
  {
    if !(EffectOf(n, i).stored.Some? && |n.toBridge| >= 128) {
      var step := SomeUpdate(cfg, n, i);
    }
  }

  // ---------------------------------------------------------------- the bounded channels

  predicate ChannelsOk(n: Node) {
    |n.admission| <= 16 && |n.toBridge| <= 128
  }

  lemma ChannelsStep(cfg: Config, n: Node, step: Step)
    requires ValidConfig(cfg) && ChannelsOk(n) && Enabled(cfg, n, step)
    ensures ChannelsOk(Apply(cfg, n, step))
  {
  }

  /** In every reachable state the channel to the coordinator holds at most 16 messages, and the
      one to the bridge at most 128; a request for a missing blob waits exactly while the
      former is full. */
  lemma {:induction false} ChannelsAreBounded(cfg: Config, steps: seq<Step>, id: string)
    requires ValidConfig(cfg) && Run(cfg, steps).Some?
    ensures var n := Run(cfg, steps).value;
            && |n.admission| <= 16 && |n.toBridge| <= 128
            && (Enabled(cfg, n, SendGetBlob(id)) <==> |n.admission| < 16)
  {
    if steps != [] {
      var last := |steps| - 1;
      ChannelsAreBounded(cfg, steps[..last], id);
      ChannelsStep(cfg, Run(cfg, steps[..last]).value, steps[last]);
    }
  }

  // ---------------------------------------------------------------- events

  /** A round of assignment, on a tick or after a permit, can always be carried out. */
  lemma TimerRound(cfg: Config, n: Node) returns (step: Step)
    requires ValidConfig(cfg)
    ensures step.AssignTimer? && Enabled(cfg, n, step)
  {
    var peers, spawned := SomeRound(n.pipe, n.now, n.freeSlots);
    step := AssignTimer(peers, spawned);
  }

  lemma PermitRound(cfg: Config, n: Node, peer: PeerId, validFor: nat) returns (step: Step)
    requires ValidConfig(cfg)
    ensures step.Permit? && step.peer == peer && step.validFor == validFor && Enabled(cfg, n, step)
  {
    var p := OnPermit(n.pipe, peer, Expiry(n.now, validFor, cfg.maxInstant));
    var peers, spawned := SomeRound(p, n.now, n.freeSlots);
    step := Permit(peer, validFor, peers, spawned);
  }

  /** Nothing that happens to the node is turned away: gossip, ticks, permits, and looking an
      accepted id up are always possible, and so is receiving whatever a channel holds. */
  lemma EventsAreTaken(cfg: Config, n: Node, peer: PeerId, validFor: nat, id: string)
    requires ValidConfig(cfg)
    ensures Enabled(cfg, n, StaleTimer) && Enabled(cfg, n, WouldStore(peer))
    ensures exists step: Step :: step.AssignTimer? && Enabled(cfg, n, step)
    ensures exists step: Step ::
              step.Permit? && step.peer == peer && step.validFor == validFor && Enabled(cfg, n, step)
    ensures Enabled(cfg, n, Inquire(id)) <==> cfg.canon(id).Some?
    ensures Enabled(cfg, n, ReceiveAdmission) <==> n.admission != []
    ensures Enabled(cfg, n, ReceiveStatus) <==> n.toBridge != []
  {
    var timer := TimerRound(cfg, n);
    var permit := PermitRound(cfg, n, peer, validFor);
  }

  /** Looking an id up leaves an entry for its validated form, a pending one if there was none,
      and nothing else; asking for a missing blob puts one message last in the channel, and
      receiving it changes nothing but the channel. */
  lemma InquiriesOnlyLook(cfg: Config, n: Node, id: string)
    requires ValidConfig(cfg)
    ensures Enabled(cfg, n, Inquire(id)) ==>
              var key := cfg.canon(id).value;
              Apply(cfg, n, Inquire(id)) ==
              if key in n.statusMap then n else n.(statusMap := n.statusMap[key := [Bridge.Pending]])
    ensures Enabled(cfg, n, SendGetBlob(id)) ==>
              Apply(cfg, n, SendGetBlob(id)) == n.(admission := n.admission + [Bridge.GetBlob(id)])
    ensures n.admission != [] && n.admission[0].GetBlob? ==>
              Apply(cfg, n, ReceiveAdmission) == n.(admission := n.admission[1..])
  {
  }
}
