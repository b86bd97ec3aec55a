/** First in, first out: from the moment a blob is handed over until the bridge has
    recorded it as finalized, blobs keep their order, and none is lost or doubled. */
module Order {
  import opened Prelude
  import opened Coordinator
  import opened Node
  import opened Custody
  import Bridge

  function MessageTickets(q: seq<Bridge.ToPipeline>): seq<nat> {
    if q == [] then [] else
    (match q[0] case NewBlob(b) => [b.ticket] case GetBlob(_) => []) + MessageTickets(q[1..])
  }

  lemma {:induction false} MessageTicketsConcat(a: seq<Bridge.ToPipeline>, b: seq<Bridge.ToPipeline>)
    ensures MessageTickets(a + b) == MessageTickets(a) + MessageTickets(b)
  {
    if a == [] {
      assert a + b == b;
    } else {
      assert (a + b)[1..] == a[1..] + b;
      MessageTicketsConcat(a[1..], b);
    }
  }

  function UpdateTickets(q: seq<StatusUpdate>): seq<nat> {
    seq(|q|, k requires 0 <= k < |q| => q[k].ticket)
  }

  /** The whole path, oldest first: recorded, reported, in the pipeline, in the channel. */
  function Trail(n: Node): seq<nat> {
    n.log.done + UpdateTickets(n.toBridge) + PipeTickets(n.pipe) + MessageTickets(n.admission)
  }

  ghost predicate SentExactly(n: Node) {
    forall t :: t in n.log.sent <==> 0 <= t < |n.requests| && HandedOver(n.requests[t])
  }

  ghost predicate TrailOk(n: Node) {
    OnTrail(n) && Distinct(n.log.sent) && SentExactly(n)
  }

  /** A stored blob leaves from the front. */
  lemma UpdateKeepsTickets(p: PipelineState, hash: Hash, status: ChunkUploadStatus, now: Instant)
    ensures var e := OnUpdate(p, hash, status, now);
            PipeTickets(p) == CurrentTicket(e.stored) + PipeTickets(e.pipe)
  {
    BeginNextKeepsTickets(p.(current := None), now);
  }

  ghost predicate OnTrail(n: Node) {
    n.log.sent == Trail(n)
  }

  lemma SendExtendsTrail(cfg: Config, n: Node, r: nat)
    requires OnTrail(n) && r < |n.requests|
    ensures OnTrail(DoSend(cfg, n, r))
  {
    var msg := Bridge.NewBlob(Handed(cfg, n, r));
    MessageTicketsConcat(n.admission, [msg]);
    assert MessageTickets([msg]) == [r] + MessageTickets([msg][1..]) == [r];
  }

  lemma GetBlobOffTrail(n: Node, id: string)
    requires OnTrail(n)
    ensures OnTrail(n.(admission := n.admission + [Bridge.GetBlob(id)]))
  {
    var msg := Bridge.GetBlob(id);
    MessageTicketsConcat(n.admission, [msg]);
    assert MessageTickets([msg]) == [] + MessageTickets([msg][1..]) == [];
  }

  /** An element may sit at the end of one stretch or at the start of the next. */
  lemma Regroup(a: seq<nat>, b: seq<nat>, x: seq<nat>, c: seq<nat>)
    ensures a + b + (x + c) == a + (b + x) + c
  {
  }

  lemma ReceiptKeepsTrail(n: Node)
    requires OnTrail(n) && n.admission != [] && n.admission[0].NewBlob?
    ensures OnTrail(DoReceiveAdmission(n))
  {
    var b := n.admission[0].blob;
    NewBlobAddsTicket(n.pipe, b, n.now);
    Regroup(n.log.done + UpdateTickets(n.toBridge), PipeTickets(n.pipe), [b.ticket],
            MessageTickets(n.admission[1..]));
  }

  lemma InquiryKeepsTrail(n: Node)
    requires OnTrail(n) && n.admission != [] && n.admission[0].GetBlob?
    ensures OnTrail(DoReceiveAdmission(n))
  {
    assert MessageTickets(n.admission) == MessageTickets(n.admission[1..]);
  }

  lemma SettleKeepsTrail(n: Node, i: nat)
    requires OnTrail(n) && IsNext(n, i)
    ensures OnTrail(Settle(n, i))
  {
    var e := EffectOf(n, i);
    var m := Settle(n, i);
    UpdateKeepsTickets(n.pipe, n.tasks[i].hash, n.tasks[i].phase.status, n.now);
    assert UpdateTickets(m.toBridge) == UpdateTickets(n.toBridge) + CurrentTicket(e.stored);
    Regroup(n.log.done, UpdateTickets(n.toBridge), CurrentTicket(e.stored), PipeTickets(e.pipe));
    assert n.log.done + UpdateTickets(n.toBridge) + PipeTickets(n.pipe)
        == m.log.done + UpdateTickets(m.toBridge) + PipeTickets(m.pipe);
  }

  lemma SpawnKeepsTrail(n: Node, p: PipelineState, spawned: seq<Upload>)
    requires OnTrail(n.(pipe := p)) && |spawned| <= n.freeSlots
    ensures OnTrail(Spawn(n, p, spawned))
  {
    assert PipeTickets(AfterAssign(p, n.now, spawned)) == PipeTickets(p);
  }

  lemma RecordingKeepsTrail(n: Node)
    requires OnTrail(n) && n.toBridge != []
    ensures OnTrail(DoReceiveStatus(n))
  {
    assert UpdateTickets(n.toBridge) == [n.toBridge[0].ticket] + UpdateTickets(n.toBridge[1..]);
  }

  lemma PermitKeepsTrail(cfg: Config, n: Node, step: Step)
    requires ValidConfig(cfg) && OnTrail(n) && step.Permit? && Enabled(cfg, n, step)
    ensures OnTrail(Apply(cfg, n, step))
  {
    var expiry := Expiry(n.now, step.validFor, cfg.maxInstant);
    SpawnKeepsTrail(n.(log := n.log.(issued := n.log.issued[step.peer := expiry])),
                    OnPermit(n.pipe, step.peer, expiry), step.spawned);
  }

  lemma UpdateKeepsTrail(cfg: Config, n: Node, step: Step)
    requires ValidConfig(cfg) && OnTrail(n) && step.Update? && Enabled(cfg, n, step)
    ensures OnTrail(Apply(cfg, n, step))
  {
    SettleKeepsTrail(n, step.i);
    if EffectOf(n, step.i).reassign {
      SpawnKeepsTrail(Settle(n, step.i), Settle(n, step.i).pipe, step.spawned);
    }
  }

  lemma TrailElsewhere(cfg: Config, n: Node, step: Step)
    requires ValidConfig(cfg) && Enabled(cfg, n, step)
    requires !(step.Send? || step.SendGetBlob? || step.ReceiveAdmission? || step.AssignTimer? || step.Permit?
               || step.Update? || step.ReceiveStatus?)
    ensures var m := Apply(cfg, n, step);
            && m.log.sent == n.log.sent && m.log.done == n.log.done && m.toBridge == n.toBridge
            && m.admission == n.admission && PipeTickets(m.pipe) == PipeTickets(n.pipe)
  {
  }

  lemma StepKeepsTrail(cfg: Config, n: Node, step: Step)
    requires ValidConfig(cfg) && Enabled(cfg, n, step) && OnTrail(n)
    ensures OnTrail(Apply(cfg, n, step))
  {
    match step
    case Send(r) => SendExtendsTrail(cfg, n, r);
    case SendGetBlob(id) => GetBlobOffTrail(n, id);
    case ReceiveAdmission =>
      if n.admission[0].NewBlob? {
        ReceiptKeepsTrail(n);
      } else {
        InquiryKeepsTrail(n);
      }
    case AssignTimer(peers, spawned) => SpawnKeepsTrail(n, n.pipe, spawned);
    case Permit(_, _, _, _) => PermitKeepsTrail(cfg, n, step);
    case Update(_, _, _) => UpdateKeepsTrail(cfg, n, step);
    case ReceiveStatus => RecordingKeepsTrail(n);
    case _ => TrailElsewhere(cfg, n, step);
  }

  lemma SendIsNew(cfg: Config, n: Node, r: nat)
    requires r < |n.requests| && n.requests[r].phase.Streaming? && Distinct(n.log.sent) && SentExactly(n)
    ensures Distinct(DoSend(cfg, n, r).log.sent) && SentExactly(DoSend(cfg, n, r))
  {
    assert r !in n.log.sent;
  }

  /** Nothing but a send hands anything over. */
  lemma SentElsewhere(cfg: Config, n: Node, step: Step)
    requires ValidConfig(cfg) && Enabled(cfg, n, step) && !step.Send?
    ensures var m := Apply(cfg, n, step);
            && m.log.sent == n.log.sent && |n.requests| <= |m.requests|
            && (forall r | 0 <= r < |n.requests| :: HandedOver(m.requests[r]) <==> HandedOver(n.requests[r]))
            && (forall r | |n.requests| <= r < |m.requests| :: !HandedOver(m.requests[r]))
  {
  }

  lemma SentStep(cfg: Config, n: Node, step: Step)
    requires ValidConfig(cfg) && Enabled(cfg, n, step) && Distinct(n.log.sent) && SentExactly(n)
    ensures Distinct(Apply(cfg, n, step).log.sent) && SentExactly(Apply(cfg, n, step))
  {
    if step.Send? {
      SendIsNew(cfg, n, step.r);
    } else {
      SentElsewhere(cfg, n, step);
    }
  }

  lemma TrailStep(cfg: Config, n: Node, step: Step)
    requires ValidConfig(cfg) && Enabled(cfg, n, step) && TrailOk(n)
    ensures TrailOk(Apply(cfg, n, step))
  {
    StepKeepsTrail(cfg, n, step);
    SentStep(cfg, n, step);
  }

  /** Blobs are finalized in the order they were handed over, each once: what is recorded
      is an initial part of what was sent. */
  lemma FinalizedInOrder(n: Node)
    requires TrailOk(n)
    ensures n.log.done <= n.log.sent && Distinct(n.log.done)
    ensures n.log.done + UpdateTickets(n.toBridge) <= n.log.sent
    ensures n.toBridge != [] ==> |n.log.done| < |n.log.sent| && n.toBridge[0].ticket == n.log.sent[|n.log.done|]
  {
    var rest := PipeTickets(n.pipe) + MessageTickets(n.admission);
    assert Trail(n) == n.log.done + (UpdateTickets(n.toBridge) + rest);
    assert Trail(n) == (n.log.done + UpdateTickets(n.toBridge)) + rest;
  }
}
