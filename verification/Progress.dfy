/** No dead ends: whatever has happened, every blob that was handed over can still be stored
    and recorded. Failed pushes, late updates, expired permits and full channels only ever
    cost time. */
module Progress {
  import opened Prelude
  import opened Coordinator
  import opened Node
  import opened Custody
  import opened Budget
  import opened Order
  import opened Attempts
  import opened Timing
  import opened Finality
  import opened Theorems
  import Session
  import Transfer

  // ---------------------------------------------------------------- in every reachable state

  /** No chunk was touched in the future. */
  predicate Dated(chunks: map<Hash, Chunk>, now: Instant) {
    forall h | h in chunks :: chunks[h].at <= now
  }

  predicate PipeDated(p: PipelineState, now: Instant) {
    && (p.current.Some? ==> Dated(p.current.value.chunks, now))
    && forall k | 0 <= k < |p.pending| :: Dated(p.pending[k].chunks, now)
  }

  lemma SpawnKeepsDates(p: PipelineState, now: Instant, slots: nat, peers: seq<PeerId>, spawned: seq<Upload>)
    requires PipeDated(p, now) && Assigns(p, now, slots, peers, spawned)
    ensures PipeDated(AfterAssign(p, now, spawned), now)
  {
    if p.current.Some? {
      var before := p.current.value.chunks;
      var after := Retarget(before, now, spawned);
      RetargetEffect(before, now, spawned);
      forall h | h in after ensures after[h].at <= now {
        if exists k :: 0 <= k < |spawned| && spawned[k].hash == h {
        } else {
          assert after[h] == before[h];
        }
      }
    }
  }

  lemma SpawnKeepsBusy(p: PipelineState, now: Instant, slots: nat, peers: seq<PeerId>, spawned: seq<Upload>)
    requires Busy(p) && PipeDated(p, now) && Assigns(p, now, slots, peers, spawned)
    ensures Busy(AfterAssign(p, now, spawned)) && PipeDated(AfterAssign(p, now, spawned), now)
  {
    SpawnKeepsWork(p, now, slots, peers, spawned);
    SpawnKeepsDates(p, now, slots, peers, spawned);
  }

  /** Whatever an update does, no blob is left without work. */
  lemma UpdateKeepsBusy(p: PipelineState, hash: Hash, status: ChunkUploadStatus, now: Instant)
    requires Busy(p) && PipeDated(p, now)
    ensures Busy(OnUpdate(p, hash, status, now).pipe) && PipeDated(OnUpdate(p, hash, status, now).pipe, now)
  {
    if p.current.Some? && hash in p.current.value.chunks {
      var chunks := p.current.value.chunks;
      var after := chunks[hash := Chunk(chunks[hash].data, status, now)];
      if !status.Finalized? {
        assert hash in Unfinished(after);
      } else if AllFinalized(after) {
        BeginNextKeepsWork(p.(current := None), now);
      } else {
        var h :| h in after && !after[h].status.Finalized?;
        assert h in Unfinished(after);
      }
    }
  }

  lemma NewBlobKeepsBusy(p: PipelineState, b: AdmittedBlob, now: Instant)
    requires Busy(p) && PipeDated(p, now) && b.leaves != []
    ensures Busy(OnNewBlob(p, b, now)) && PipeDated(OnNewBlob(p, b, now), now)
  {
    NewBlobAddsWork(p, b, now);
    var q := AddLocalBlob(p, b, now);
    forall k | 0 <= k < |q.pending| ensures Dated(q.pending[k].chunks, now) {
      if k < |p.pending| {
        assert q.pending[k] == p.pending[k];
      }
    }
  }

  lemma PipelineKeepsBusy(cfg: Config, n: Node, step: Step)
    requires ValidConfig(cfg) && RequestsOk(cfg, n) && QueueOk(cfg, n)
    requires Busy(n.pipe) && PipeDated(n.pipe, n.now) && Enabled(cfg, n, step) && !OffPipeline(step)
    ensures Busy(Apply(cfg, n, step).pipe) && PipeDated(Apply(cfg, n, step).pipe, Apply(cfg, n, step).now)
  {
    match step
    case ReceiveAdmission =>
      if n.admission[0].NewBlob? {
        QueuedHasChunks(cfg, n, n.admission[0].blob);
        NewBlobKeepsBusy(n.pipe, n.admission[0].blob, n.now);
      }
    case AssignTimer(peers, spawned) => SpawnKeepsBusy(n.pipe, n.now, n.freeSlots, peers, spawned);
    case Permit(peer, validFor, peers, spawned) =>
      SpawnKeepsBusy(OnPermit(n.pipe, peer, Expiry(n.now, validFor, cfg.maxInstant)),
                     n.now, n.freeSlots, peers, spawned);
    case Update(i, peers, spawned) =>
      UpdateKeepsBusy(n.pipe, n.tasks[i].hash, n.tasks[i].phase.status, n.now);
      if EffectOf(n, i).reassign {
        SpawnKeepsBusy(EffectOf(n, i).pipe, n.now, n.freeSlots, peers, spawned);
      }
    case _ =>
  }

  lemma BusyStep(cfg: Config, n: Node, step: Step)
    requires ValidConfig(cfg) && RequestsOk(cfg, n) && QueueOk(cfg, n)
    requires Busy(n.pipe) && PipeDated(n.pipe, n.now) && Enabled(cfg, n, step)
    ensures Busy(Apply(cfg, n, step).pipe) && PipeDated(Apply(cfg, n, step).pipe, Apply(cfg, n, step).now)
  {
    if OffPipeline(step) {
      OffPipelineStep(cfg, n, step);
    } else {
      PipelineKeepsBusy(cfg, n, step);
    }
  }

  lemma {:induction false} AlwaysBusy(cfg: Config, steps: seq<Step>)
    requires ValidConfig(cfg) && Run(cfg, steps).Some?
    ensures Busy(Run(cfg, steps).value.pipe) && PipeDated(Run(cfg, steps).value.pipe, Run(cfg, steps).value.now)
  {
    if steps != [] {
      var last := |steps| - 1;
      AlwaysBusy(cfg, steps[..last]);
      AlwaysSafe(cfg, steps[..last]);
      BusyStep(cfg, Run(cfg, steps[..last]).value, steps[last]);
    }
  }

  ghost predicate Reachable(cfg: Config, n: Node)
    requires ValidConfig(cfg)
  {
    exists steps :: Run(cfg, steps) == Some(n)
  }

  lemma ReachableStep(cfg: Config, n: Node, step: Step)
    requires ValidConfig(cfg) && Reachable(cfg, n) && Enabled(cfg, n, step)
    ensures Reachable(cfg, Apply(cfg, n, step))
  {
    var steps :| Run(cfg, steps) == Some(n);
    RunSnoc(cfg, steps, step);
    assert Run(cfg, steps + [step]) == Some(Apply(cfg, n, step));
  }

  /** What progress needs to know of a reachable state. */
  lemma ReachableTasks(cfg: Config, n: Node)
    requires ValidConfig(cfg) && Reachable(cfg, n)
    ensures TasksOk(n) && CargoOk(cfg, n) && SlotsOk(n)
  {
    var steps :| Run(cfg, steps) == Some(n);
    AlwaysSafe(cfg, steps);
  }

  lemma ReachableInbox(cfg: Config, n: Node)
    requires ValidConfig(cfg) && Reachable(cfg, n)
    ensures InboxOk(n)
  {
    var steps :| Run(cfg, steps) == Some(n);
    AlwaysTasksOk(cfg, steps);
  }

  lemma ReachableBlobs(cfg: Config, n: Node)
    requires ValidConfig(cfg) && Reachable(cfg, n)
    ensures Busy(n.pipe) && PipeDated(n.pipe, n.now)
    ensures n.pipe.current.None? ==> n.pipe.pending == []
  {
    var steps :| Run(cfg, steps) == Some(n);
    AlwaysSafe(cfg, steps);
    AlwaysBusy(cfg, steps);
  }

  lemma ReachableTrail(cfg: Config, n: Node)
    requires ValidConfig(cfg) && Reachable(cfg, n)
    ensures TrailOk(n)
  {
    var steps :| Run(cfg, steps) == Some(n);
    AlwaysOnTrail(cfg, steps);
  }

  // ---------------------------------------------------------------- continuations

  /** Nothing is handed over and nothing received, no request moves, no id is taken or freed;
      what was reported stays reported. */
  predicate Onward(n: Node, m: Node) {
    && m.log.sent == n.log.sent && m.admission == n.admission
    && m.requests == n.requests && m.statusMap.Keys == n.statusMap.Keys
    && n.log.done <= m.log.done
    && n.log.done + UpdateTickets(n.toBridge) <= m.log.done + UpdateTickets(m.toBridge)
  }

  predicate Quiet(step: Step) {
    match step
    case Tick(_) => true
    case AssignTimer(_, _) => true
    case Permit(_, _, _, _) => true
    case Update(_, _, _) => true
    case TaskEnds(_, _) => true
    case Post(_) => true
    case ReceiveStatus => true
    case _ => false
  }

  lemma OnwardStep(cfg: Config, n: Node, step: Step)
    requires ValidConfig(cfg) && Enabled(cfg, n, step) && Quiet(step)
    ensures Onward(n, Apply(cfg, n, step))
  {
    var m := Apply(cfg, n, step);
    match step
    case ReceiveStatus =>
      assert UpdateTickets(n.toBridge) == [n.toBridge[0].ticket] + UpdateTickets(m.toBridge);
    case Update(i, _, _) =>
      assert UpdateTickets(m.toBridge)[..|n.toBridge|] == UpdateTickets(n.toBridge);
    case _ =>
  }

  /** `more` leads to `m`, quietly. */
  ghost predicate Reaches(cfg: Config, n: Node, more: seq<Step>, m: Node)
    requires ValidConfig(cfg)
  {
    Leads(cfg, n, more, m) && Reachable(cfg, m) && Onward(n, m)
  }

  lemma ReachesFrom(cfg: Config, n: Node, step: Step, rest: seq<Step>, m: Node)
    requires ValidConfig(cfg) && Enabled(cfg, n, step) && Quiet(step) && Reaches(cfg, Apply(cfg, n, step), rest, m)
    ensures Reaches(cfg, n, [step] + rest, m)
  {
    LeadsFrom(cfg, n, step, rest, m);
    OnwardStep(cfg, n, step);
  }

  lemma ReachesOn(cfg: Config, n: Node, more: seq<Step>, m: Node, rest: seq<Step>, l: Node)
    requires ValidConfig(cfg) && Reaches(cfg, n, more, m) && Reaches(cfg, m, rest, l)
    ensures Reaches(cfg, n, more + rest, l)
  {
    LeadsOn(cfg, n, more, m, rest, l);
  }

  lemma DrainOne(cfg: Config, n: Node)
    requires ValidConfig(cfg) && n.toBridge != []
    ensures Enabled(cfg, n, ReceiveStatus)
    ensures var k := Apply(cfg, n, ReceiveStatus);
            && k.pipe == n.pipe && k.tasks == n.tasks && k.now == n.now && k.toBridge == n.toBridge[1..]
            && k.log.done + UpdateTickets(k.toBridge) == n.log.done + UpdateTickets(n.toBridge)
  {
    assert UpdateTickets(n.toBridge) == [n.toBridge[0].ticket] + UpdateTickets(n.toBridge[1..]);
  }

  /** The bridge handles what waits for it. */
  lemma {:induction false} Drain(cfg: Config, n: Node) returns (more: seq<Step>, m: Node)
    requires ValidConfig(cfg) && Reachable(cfg, n)
    ensures Reaches(cfg, n, more, m)
    ensures m.toBridge == [] && m.log.done == n.log.done + UpdateTickets(n.toBridge)
    ensures m.pipe == n.pipe && m.tasks == n.tasks && m.now == n.now
    decreases |n.toBridge|
  {
    if n.toBridge == [] {
      LeadsNowhere(cfg, n);
      more, m := [], n;
      assert n.log.done + UpdateTickets(n.toBridge) == n.log.done;
    } else {
      DrainOne(cfg, n);
      ReachableStep(cfg, n, ReceiveStatus);
      more, m := Drain(cfg, Apply(cfg, n, ReceiveStatus));
      ReachesFrom(cfg, n, ReceiveStatus, more, m);
      more := [ReceiveStatus] + more;
    }
  }

  // ---------------------------------------------------------------- clearing what is left over

  /** Successes that the coordinator has not handled. */
  function GoodNews(t: Task): nat {
    if t.phase.Reported? && t.phase.status.Finalized? then 1 else 0
  }

  function LoadOf(t: Task): nat {
    match t.phase case Running => 2 case Reported(_) => 1 case Gone => 0
  }

  lemma {:induction false} NewTasksHaveNoNews(spawned: seq<Upload>, now: Instant)
    ensures SumOf(NewTasks(spawned, now), GoodNews) == 0
  {
    if spawned != [] {
      NewTasksHaveNoNews(spawned[1..], now);
      assert NewTasks(spawned, now)[1..] == NewTasks(spawned[1..], now);
    }
  }

  predicate Idle(n: Node) {
    forall i | 0 <= i < |n.tasks| :: n.tasks[i].phase.Gone?
  }

  lemma SpawnBringsNoNews(n: Node, p: PipelineState, spawned: seq<Upload>)
    requires |spawned| <= n.freeSlots
    ensures SumOf(Spawn(n, p, spawned).tasks, GoodNews) == SumOf(n.tasks, GoodNews)
  {
    SumOfConcat(n.tasks, NewTasks(spawned, n.now), GoodNews);
    NewTasksHaveNoNews(spawned, n.now);
  }

  /** A handled update is neither load nor news any more. */
  lemma SettleLightens(n: Node, i: nat)
    requires IsNext(n, i)
    ensures SumOf(Settle(n, i).tasks, GoodNews) + GoodNews(n.tasks[i]) == SumOf(n.tasks, GoodNews)
    ensures SumOf(Settle(n, i).tasks, LoadOf) < SumOf(n.tasks, LoadOf)
  {
    SumOfUpdate(n.tasks, i, n.tasks[i].(phase := Gone), GoodNews);
    SumOfUpdate(n.tasks, i, n.tasks[i].(phase := Gone), LoadOf);
  }

  /** Either the blob is stored by the update, or it stays current. */
  lemma SettleKeepsCurrent(n: Node, i: nat)
    requires n.pipe.current.Some? && n.toBridge == [] && IsNext(n, i)
    ensures var m := Settle(n, i);
            if EffectOf(n, i).stored.Some? then HasLeft(m, n.pipe.current.value.ticket)
            else IsCurrent(m, n.pipe.current.value.ticket) && m.toBridge == []
  {
    if EffectOf(n, i).stored.Some? {
      assert UpdateTickets(Settle(n, i).toBridge)[0] == n.pipe.current.value.ticket;
    }
  }

  /** Handling an update, with the round that follows. */
  lemma HandleReport(cfg: Config, n: Node, i: nat) returns (step: Step)
    requires ValidConfig(cfg) && n.toBridge == []
    requires n.pipe.current.Some? && IsNext(n, i)
    ensures step.Update? && step.i == i && Enabled(cfg, n, step)
    ensures var m := Apply(cfg, n, step);
            && m.now == n.now
            && (if EffectOf(n, i).stored.Some? then HasLeft(m, n.pipe.current.value.ticket)
                else IsCurrent(m, n.pipe.current.value.ticket) && m.toBridge == [])
            && SumOf(m.tasks, GoodNews) + GoodNews(n.tasks[i]) == SumOf(n.tasks, GoodNews)
            && (n.tasks[i].phase.status.Pending? ==> SumOf(m.tasks, LoadOf) < SumOf(n.tasks, LoadOf))
  {
    step := SomeUpdate(cfg, n, i);
    SettleLightens(n, i);
    SettleKeepsCurrent(n, i);
    if EffectOf(n, i).reassign {
      SpawnBringsNoNews(Settle(n, i), Settle(n, i).pipe, step.spawned);
    }
  }

  lemma FailUpload(cfg: Config, n: Node, i: nat)
    requires ValidConfig(cfg) && i < |n.tasks| && n.tasks[i].phase.Running?
    ensures Enabled(cfg, n, TaskEnds(i, PushErr))
    ensures var m := Apply(cfg, n, TaskEnds(i, PushErr));
            && m.now == n.now && m.pipe == n.pipe && m.toBridge == n.toBridge
            && SumOf(m.tasks, GoodNews) == SumOf(n.tasks, GoodNews) && SumOf(m.tasks, LoadOf) < SumOf(n.tasks, LoadOf)
  {
    var m := Apply(cfg, n, TaskEnds(i, PushErr));
    SumOfUpdate(n.tasks, i, m.tasks[i], GoodNews);
    SumOfUpdate(n.tasks, i, m.tasks[i], LoadOf);
  }

  /** What is reported is success or failure. */
  lemma ReportIsFinal(cfg: Config, n: Node, i: nat)
    requires ValidConfig(cfg) && Reachable(cfg, n) && i < |n.tasks| && n.tasks[i].phase.Reported?
    ensures n.tasks[i].phase.status.Pending? || GoodNews(n.tasks[i]) == 1
  {
    ReachableTasks(cfg, n);
    assert TaskOk(n, n.tasks[i]);
  }

  /** Fewer successes to handle, or as many and less to wait for. */
  predicate Lighter(m: Node, n: Node) {
    SumOf(m.tasks, GoodNews) < SumOf(n.tasks, GoodNews)
    || (SumOf(m.tasks, GoodNews) == SumOf(n.tasks, GoodNews) && SumOf(m.tasks, LoadOf) < SumOf(n.tasks, LoadOf))
  }

  /** One update handled. */
  lemma HandleOne(cfg: Config, n: Node, ticket: nat, i: nat) returns (more: seq<Step>, m: Node)
    requires ValidConfig(cfg) && Reachable(cfg, n) && n.toBridge == [] && IsCurrent(n, ticket) && IsNext(n, i)
    ensures Reaches(cfg, n, more, m) && m.now == n.now
    ensures HasLeft(m, ticket) || (IsCurrent(m, ticket) && m.toBridge == [])
    ensures Lighter(m, n)
  {
    ReportIsFinal(cfg, n, i);
    var step := HandleReport(cfg, n, i);
    ReachableStep(cfg, n, step);
    m := Apply(cfg, n, step);
    LeadsNowhere(cfg, m);
    ReachesFrom(cfg, n, step, [], m);
    more := [step] + [];
  }

  /** One upload failed. */
  lemma FailOne(cfg: Config, n: Node, ticket: nat, i: nat) returns (more: seq<Step>, m: Node)
    requires ValidConfig(cfg) && Reachable(cfg, n) && n.toBridge == [] && IsCurrent(n, ticket)
    requires i < |n.tasks| && n.tasks[i].phase.Running?
    ensures Reaches(cfg, n, more, m) && m.now == n.now && IsCurrent(m, ticket) && m.toBridge == []
    ensures Lighter(m, n)
  {
    var step := TaskEnds(i, PushErr);
    FailUpload(cfg, n, i);
    ReachableStep(cfg, n, step);
    m := Apply(cfg, n, step);
    LeadsNowhere(cfg, m);
    ReachesFrom(cfg, n, step, [], m);
    more := [step] + [];
  }

  /** One update sent, when the channel is empty, and handled. */
  lemma PostOne(cfg: Config, n: Node, ticket: nat, i: nat) returns (more: seq<Step>, m: Node)
    requires ValidConfig(cfg) && Reachable(cfg, n) && n.toBridge == [] && IsCurrent(n, ticket)
    requires i < |n.tasks| && n.tasks[i].phase.Reported? && n.inbox == []
    ensures Reaches(cfg, n, more, m) && m.now == n.now
    ensures HasLeft(m, ticket) || (IsCurrent(m, ticket) && m.toBridge == [])
    ensures Lighter(m, n)
  {
    ReachableStep(cfg, n, Post(i));
    more, m := HandleOne(cfg, Apply(cfg, n, Post(i)), ticket, i);
    ReachesFrom(cfg, n, Post(i), more, m);
    more := [Post(i)] + more;
  }

  /** With an empty channel, an update is sent and handled, or an upload fails. */
  lemma Stir(cfg: Config, n: Node, ticket: nat) returns (more: seq<Step>, m: Node)
    requires ValidConfig(cfg) && Reachable(cfg, n) && n.toBridge == [] && IsCurrent(n, ticket)
    requires n.inbox == [] && !Idle(n)
    ensures Reaches(cfg, n, more, m) && m.now == n.now && Lighter(m, n)
    ensures HasLeft(m, ticket) || (IsCurrent(m, ticket) && m.toBridge == [])
  {
    var i: nat :| i < |n.tasks| && !n.tasks[i].phase.Gone?;
    match n.tasks[i].phase
    case Running => more, m := FailOne(cfg, n, ticket, i);
    case Reported(_) => more, m := PostOne(cfg, n, ticket, i);
  }

  lemma FirstIsNext(cfg: Config, n: Node)
    requires ValidConfig(cfg) && Reachable(cfg, n) && n.inbox != []
    ensures IsNext(n, n.inbox[0])
  {
    ReachableInbox(cfg, n);
  }

  /** The channel of updates is worked off, what has not been sent is sent, and what still runs
      fails, until nothing is left over. */
  lemma {:induction false} ClearTasks(cfg: Config, n: Node, ticket: nat) returns (more: seq<Step>, m: Node)
    requires ValidConfig(cfg) && Reachable(cfg, n) && n.toBridge == [] && IsCurrent(n, ticket)
    ensures Reaches(cfg, n, more, m) && m.now == n.now
    ensures HasLeft(m, ticket) || (IsCurrent(m, ticket) && Idle(m) && m.inbox == [] && m.toBridge == [])
    decreases SumOf(n.tasks, GoodNews), SumOf(n.tasks, LoadOf)
  {
    if n.inbox == [] && Idle(n) {
      LeadsNowhere(cfg, n);
      more, m := [], n;
    } else {
      if n.inbox != [] {
        FirstIsNext(cfg, n);
        more, m := HandleOne(cfg, n, ticket, n.inbox[0]);
      } else {
        more, m := Stir(cfg, n, ticket);
      }
      if !HasLeft(m, ticket) {
        var rest, l := ClearTasks(cfg, m, ticket);
        ReachesOn(cfg, n, more, m, rest, l);
        more, m := more + rest, l;
      }
    }
  }

  // ---------------------------------------------------------------- storing the current blob

  /** No update is under way. */
  predicate Calm(n: Node) {
    forall i | 0 <= i < |n.tasks| :: n.tasks[i].phase.Running? || n.tasks[i].phase.Gone?
  }

  predicate RunningFor(n: Node, h: Hash) {
    exists i :: 0 <= i < |n.tasks| && n.tasks[i].phase.Running? && n.tasks[i].hash == h
  }

  /** Every unfinished chunk of the current blob is due or being uploaded. */
  predicate Ready(n: Node) {
    n.pipe.current.Some? &&
    forall h | h in Unfinished(n.pipe.current.value.chunks) ::
      IsEligible(n.pipe.current.value.chunks[h], n.now) || RunningFor(n, h)
  }

  /** All is set for storing the blob `ticket`, with the permit of `peer`. */
  ghost predicate Uploading(n: Node, ticket: nat, peer: PeerId) {
    && IsCurrent(n, ticket) && n.toBridge == [] && n.inbox == [] && peer in EligiblePeers(n.pipe.permits, n.now)
    && Calm(n) && Ready(n) && Healthy(n) && Timely(n)
  }

  lemma SpawnKeepsReady(n: Node, p: PipelineState, peers: seq<PeerId>, spawned: seq<Upload>)
    requires Calm(n) && Ready(n.(pipe := p)) && Assigns(p, n.now, n.freeSlots, peers, spawned)
    requires |spawned| <= n.freeSlots
    ensures Calm(Spawn(n, p, spawned)) && Ready(Spawn(n, p, spawned))
    ensures WorkIn(Spawn(n, p, spawned).pipe.current.value) == WorkIn(p.current.value)
  {
    var m := Spawn(n, p, spawned);
    var before, after := p.current.value.chunks, m.pipe.current.value.chunks;
    SpawnKeepsUnfinished(p, n.now, n.freeSlots, peers, spawned);
    RetargetEffect(before, n.now, spawned);
    forall h | h in Unfinished(after) ensures IsEligible(after[h], m.now) || RunningFor(m, h) {
      if k: nat :| k < |spawned| && spawned[k].hash == h {
        assert m.tasks[|n.tasks| + k] == NewTasks(spawned, n.now)[k];
      } else {
        assert after[h] == before[h];
        if RunningFor(n.(pipe := p), h) {
          var i :| 0 <= i < |n.tasks| && n.tasks[i].phase.Running? && n.tasks[i].hash == h;
          assert m.tasks[i] == n.tasks[i];
        }
      }
    }
  }

  lemma SpawnKeepsTimely(n: Node, p: PipelineState, spawned: seq<Upload>)
    requires Timely(n) && |spawned| <= n.freeSlots
    ensures Timely(Spawn(n, p, spawned))
  {
    var m := Spawn(n, p, spawned);
    forall i | 0 <= i < |m.tasks| && Outstanding(m.tasks[i])
      ensures m.now < m.tasks[i].at + (CHUNK_UPLOAD_WINDOW + 1) * MILLIS
    {
      if i < |n.tasks| {
        assert m.tasks[i] == n.tasks[i];
      }
    }
  }

  lemma PipelineKeepsTimely(cfg: Config, n: Node, step: Step)
    requires ValidConfig(cfg) && Timely(n) && Enabled(cfg, n, step) && !OffPipeline(step)
    ensures Timely(Apply(cfg, n, step))
  {
    match step
    case AssignTimer(peers, spawned) => SpawnKeepsTimely(n, n.pipe, spawned);
    case Permit(peer, validFor, peers, spawned) =>
      var expiry := Expiry(n.now, validFor, cfg.maxInstant);
      SpawnKeepsTimely(n.(log := n.log.(issued := n.log.issued[peer := expiry])),
                       OnPermit(n.pipe, peer, expiry), spawned);
    case Update(i, peers, spawned) =>
      if EffectOf(n, i).reassign {
        SpawnKeepsTimely(Settle(n, i), Settle(n, i).pipe, spawned);
      }
    case _ =>
  }

  /** As long as the clock stands still, a timely run stays timely. */
  lemma TimelyStep(cfg: Config, n: Node, step: Step)
    requires ValidConfig(cfg) && Timely(n) && Enabled(cfg, n, step) && !step.Tick?
    ensures Timely(Apply(cfg, n, step))
  {
    if OffPipeline(step) {
      OffPipelineStep(cfg, n, step);
    } else {
      PipelineKeepsTimely(cfg, n, step);
    }
  }

  /** Some session ends with the push of a genuine chunk accepted. */
  lemma SomeSession(cfg: Config, t: Task) returns (session: Session.State<Transfer.PushResult>)
    requires ValidConfig(cfg) && cfg.window > 0 && cfg.hasher(t.data) == t.hash && |t.data| <= cfg.size
    ensures MayAccept(cfg, t, session)
  {
    var p := Transfer.Push(cfg.hasher, cfg.size, cfg.window, t.hash, t.data);
    var end := Transfer.PushCompletes(cfg.hasher, cfg.size, cfg.window, t.hash, t.data, []);
    session := Session.Play(p, end).value;
    assert Session.Reachable(p, session);
  }

  /** A success takes its own chunk off the list and leaves the others as they are. */
  lemma SuccessKeepsReady(n: Node, k: Node, i: nat)
    requires Calm(n) && Ready(n) && Healthy(n) && i < |n.tasks| && n.tasks[i].phase.Running?
    requires k.pipe == n.pipe && k.now == n.now
    requires k.tasks == n.tasks[i := n.tasks[i].(phase := Reported(Finalized(n.tasks[i].to)))] && k.inbox == [i]
    ensures EffectOf(k, i).reassign
    ensures var m := Settle(k, i);
            EffectOf(k, i).stored.None? ==>
              && m.pipe.permits == n.pipe.permits && m.pipe.current.Some?
              && m.pipe.current.value.ticket == n.pipe.current.value.ticket
              && m.inbox == [] && Calm(m) && Ready(m)
              && WorkIn(m.pipe.current.value) + 1 == WorkIn(n.pipe.current.value)
  {
    var h := n.tasks[i].hash;
    assert Matches(n.pipe, n.tasks[i]);
    var before := n.pipe.current.value.chunks;
    var after := before[h := Chunk(before[h].data, Finalized(n.tasks[i].to), n.now)];
    assert Unfinished(after) == Unfinished(before) - {h};
    if EffectOf(k, i).stored.None? {
      var m := Settle(k, i);
      forall h' | h' in Unfinished(after) ensures IsEligible(after[h'], m.now) || RunningFor(m, h') {
        assert after[h'] == before[h'];
        if RunningFor(n, h') {
          var j :| 0 <= j < |n.tasks| && n.tasks[j].phase.Running? && n.tasks[j].hash == h';
          assert m.tasks[j] == n.tasks[j];
        }
      }
    }
  }

  /** An upload whose push is accepted. */
  lemma EndUpload(cfg: Config, n: Node, i: nat) returns (step: Step)
    requires ValidConfig(cfg) && cfg.window > 0 && Reachable(cfg, n) && Healthy(n) && Timely(n)
    requires i < |n.tasks| && n.tasks[i].phase.Running?
    ensures step.TaskEnds? && Enabled(cfg, n, step)
    ensures var k := Apply(cfg, n, step);
            && Reachable(cfg, k) && Healthy(k) && Timely(k)
            && k.pipe == n.pipe && k.now == n.now && k.toBridge == n.toBridge && k.inbox == n.inbox
            && k.tasks == n.tasks[i := n.tasks[i].(phase := Reported(Finalized(n.tasks[i].to)))]
  {
    ReachableTasks(cfg, n);
    var session := SomeSession(cfg, n.tasks[i]);
    step := TaskEnds(i, PushOk(session));
    ReachableStep(cfg, n, step);
    HealthyStep(cfg, n, step);
    TimelyStep(cfg, n, step);
  }

  lemma SendSuccess(cfg: Config, n: Node, i: nat)
    requires ValidConfig(cfg) && Reachable(cfg, n) && Healthy(n) && Timely(n)
    requires i < |n.tasks| && n.tasks[i].phase.Reported? && n.inbox == []
    ensures Enabled(cfg, n, Post(i)) && Reachable(cfg, Apply(cfg, n, Post(i)))
    ensures var k := Apply(cfg, n, Post(i));
            Healthy(k) && Timely(k) && k == n.(inbox := [i])
  {
    ReachableTasks(cfg, n);
    ReachableStep(cfg, n, Post(i));
    HealthyStep(cfg, n, Post(i));
    TimelyStep(cfg, n, Post(i));
  }

  /** The success is handled, and the round that follows keeps all set. */
  lemma HandleSuccess(cfg: Config, n: Node, k: Node, i: nat, ticket: nat, peer: PeerId) returns (step: Step)
    requires ValidConfig(cfg) && Uploading(n, ticket, peer) && i < |n.tasks| && n.tasks[i].phase.Running?
    requires Reachable(cfg, k) && Healthy(k) && Timely(k)
    requires k.pipe == n.pipe && k.now == n.now && k.toBridge == n.toBridge && k.inbox == [i]
    requires k.tasks == n.tasks[i := n.tasks[i].(phase := Reported(Finalized(n.tasks[i].to)))]
    ensures step.Update? && Enabled(cfg, k, step)
    ensures var m := Apply(cfg, k, step);
            && m.now == n.now
            && (HasLeft(m, ticket)
                || (Uploading(m, ticket, peer) && WorkIn(m.pipe.current.value) < WorkIn(n.pipe.current.value)))
  {
    step := SomeUpdate(cfg, k, i);
    SettleKeepsCurrent(k, i);
    ReachableTasks(cfg, k);
    SuccessKeepsReady(n, k, i);
    HealthyStep(cfg, k, step);
    TimelyStep(cfg, k, step);
    if EffectOf(k, i).stored.None? {
      var s := Settle(k, i);
      SpawnKeepsReady(s, s.pipe, step.peers, step.spawned);
    }
  }

  lemma {:induction false} IdleTasksHoldNoSlots(tasks: seq<Task>)
    requires forall i | 0 <= i < |tasks| :: tasks[i].phase.Gone?
    ensures SumOf(tasks, SlotOf) == 0
  {
    if tasks != [] {
      IdleTasksHoldNoSlots(tasks[1..]);
    }
  }

  /** When nothing runs, a round of assignment starts something. */
  lemma StartUploads(cfg: Config, n: Node, ticket: nat, peer: PeerId) returns (step: Step, i: nat)
    requires ValidConfig(cfg) && Reachable(cfg, n) && Uploading(n, ticket, peer) && Idle(n)
    ensures step.AssignTimer? && Enabled(cfg, n, step)
    ensures var m := Apply(cfg, n, step);
            && m.now == n.now && Uploading(m, ticket, peer) && i < |m.tasks| && m.tasks[i].phase.Running?
            && WorkIn(m.pipe.current.value) == WorkIn(n.pipe.current.value)
  {
    ReachableTasks(cfg, n);
    ReachableBlobs(cfg, n);
    IdleTasksHoldNoSlots(n.tasks);
    var chunks := n.pipe.current.value.chunks;
    assert WorkIn(n.pipe.current.value) > 0;
    var h :| h in Unfinished(chunks);
    assert h in EligibleChunks(chunks, n.now);
    var peers := SomeOrder(EligiblePeers(n.pipe.permits, n.now));
    EnumerationLength(peers, EligiblePeers(n.pipe.permits, n.now));
    var spawned := ScheduleFor(chunks, n.now, n.freeSlots, peers, h);
    step, i := AssignTimer(peers, spawned), |n.tasks|;
    HealthyStep(cfg, n, step);
    TimelyStep(cfg, n, step);
    SpawnKeepsReady(n, n.pipe, peers, spawned);
  }

  lemma FinishOne(cfg: Config, n: Node, ticket: nat, peer: PeerId, i: nat) returns (more: seq<Step>, m: Node)
    requires ValidConfig(cfg) && cfg.window > 0 && Reachable(cfg, n) && Uploading(n, ticket, peer)
    requires i < |n.tasks| && n.tasks[i].phase.Running?
    ensures Reaches(cfg, n, more, m) && m.now == n.now
    ensures HasLeft(m, ticket)
            || (Uploading(m, ticket, peer) && WorkIn(m.pipe.current.value) < WorkIn(n.pipe.current.value))
  {
    var end := EndUpload(cfg, n, i);
    var e := Apply(cfg, n, end);
    SendSuccess(cfg, e, i);
    var k := Apply(cfg, e, Post(i));
    var handle := HandleSuccess(cfg, n, k, i, ticket, peer);
    ReachableStep(cfg, k, handle);
    m := Apply(cfg, k, handle);
    LeadsNowhere(cfg, m);
    ReachesFrom(cfg, k, handle, [], m);
    ReachesFrom(cfg, e, Post(i), [handle] + [], m);
    ReachesFrom(cfg, n, end, [Post(i)] + ([handle] + []), m);
    more := [end] + ([Post(i)] + ([handle] + []));
  }

  lemma StartSome(cfg: Config, n: Node, ticket: nat, peer: PeerId) returns (more: seq<Step>, m: Node)
    requires ValidConfig(cfg) && Reachable(cfg, n) && Uploading(n, ticket, peer) && Idle(n)
    ensures Reaches(cfg, n, more, m) && m.now == n.now && Uploading(m, ticket, peer) && !Idle(m)
    ensures WorkIn(m.pipe.current.value) == WorkIn(n.pipe.current.value)
  {
    var start, i := StartUploads(cfg, n, ticket, peer);
    ReachableStep(cfg, n, start);
    m := Apply(cfg, n, start);
    LeadsNowhere(cfg, m);
    ReachesFrom(cfg, n, start, [], m);
    more := [start] + [];
  }

  /** With all set, one chunk after the other arrives, until the blob is stored. */
  lemma {:induction false} FinishBlob(cfg: Config, n: Node, ticket: nat, peer: PeerId)
    returns (more: seq<Step>, m: Node)
    requires ValidConfig(cfg) && cfg.window > 0 && Reachable(cfg, n) && Uploading(n, ticket, peer)
    ensures Reaches(cfg, n, more, m) && m.now == n.now && HasLeft(m, ticket)
    decreases WorkIn(n.pipe.current.value), Idle(n)
  {
    if Idle(n) {
      more, m := StartSome(cfg, n, ticket, peer);
    } else {
      var i: nat :| i < |n.tasks| && !n.tasks[i].phase.Gone?;
      more, m := FinishOne(cfg, n, ticket, peer, i);
    }
    if !HasLeft(m, ticket) {
      var rest, l := FinishBlob(cfg, m, ticket, peer);
      ReachesOn(cfg, n, more, m, rest, l);
      more, m := more + rest, l;
    }
  }

  /** 31 seconds make every unfinished chunk due. */
  lemma WaitMakesDue(n: Node)
    requires n.pipe.current.Some? && PipeDated(n.pipe, n.now) && Idle(n)
    ensures Ready(n.(now := n.now + 31_000)) && Calm(n.(now := n.now + 31_000))
    ensures Healthy(n.(now := n.now + 31_000)) && Timely(n.(now := n.now + 31_000))
  {
  }

  /** A permit for one second. */
  lemma GrantPermit(cfg: Config, n: Node, ticket: nat, peer: PeerId) returns (step: Step)
    requires ValidConfig(cfg) && TasksOk(n) && n.now + 1000 <= cfg.maxInstant
    requires IsCurrent(n, ticket) && n.toBridge == [] && n.inbox == [] && Calm(n) && Ready(n) && Healthy(n) && Timely(n)
    ensures step.Permit? && Enabled(cfg, n, step)
    ensures Uploading(Apply(cfg, n, step), ticket, peer) && Apply(cfg, n, step).now == n.now
  {
    var expiry := Expiry(n.now, 1, cfg.maxInstant);
    var p := OnPermit(n.pipe, peer, expiry);
    var peers, spawned := SomeRound(p, n.now, n.freeSlots);
    step := Permit(peer, 1, peers, spawned);
    HealthyStep(cfg, n, step);
    TimelyStep(cfg, n, step);
    SpawnKeepsReady(n.(log := n.log.(issued := n.log.issued[peer := expiry])), p, peers, spawned);
  }

  lemma SetUp(cfg: Config, n: Node, ticket: nat, peer: PeerId) returns (more: seq<Step>, m: Node)
    requires ValidConfig(cfg) && Reachable(cfg, n) && IsCurrent(n, ticket) && Idle(n)
    requires n.toBridge == [] && n.inbox == [] && n.now + 32_000 <= cfg.maxInstant
    ensures Reaches(cfg, n, more, m) && m.now == n.now + 31_000 && Uploading(m, ticket, peer)
  {
    var wait := Tick(31_000);
    ReachableBlobs(cfg, n);
    WaitMakesDue(n);
    ReachableStep(cfg, n, wait);
    var k := Apply(cfg, n, wait);
    ReachableTasks(cfg, k);
    var grant := GrantPermit(cfg, k, ticket, peer);
    ReachableStep(cfg, k, grant);
    m := Apply(cfg, k, grant);
    LeadsNowhere(cfg, m);
    ReachesFrom(cfg, k, grant, [], m);
    ReachesFrom(cfg, n, wait, [grant] + [], m);
    more := [wait] + ([grant] + []);
  }

  lemma StoreCurrent(cfg: Config, n: Node, ticket: nat, peer: PeerId) returns (more: seq<Step>, m: Node)
    requires ValidConfig(cfg) && cfg.window > 0 && Reachable(cfg, n) && IsCurrent(n, ticket) && n.toBridge == []
    requires n.now + 32_000 <= cfg.maxInstant
    ensures Reaches(cfg, n, more, m) && m.now <= n.now + 31_000 && HasLeft(m, ticket)
  {
    more, m := ClearTasks(cfg, n, ticket);
    if !HasLeft(m, ticket) {
      var ready, k := SetUp(cfg, m, ticket, peer);
      var finish, l := FinishBlob(cfg, k, ticket, peer);
      ReachesOn(cfg, m, ready, k, finish, l);
      ReachesOn(cfg, n, more, m, ready + finish, l);
      more, m := more + (ready + finish), l;
    }
  }

  // ---------------------------------------------------------------- storing any blob

  /** Blobs handed over whose update the bridge has not handled yet. */
  function Ahead(n: Node): int {
    |n.log.sent| - |n.log.done|
  }

  lemma LongerBy(a: seq<nat>, b: seq<nat>, x: nat)
    requires a <= b && x in b && x !in a
    ensures |a| < |b|
  {
    assert b == a + b[|a|..];
    assert x in b[|a|..];
  }

  lemma TrailBounds(n: Node)
    requires TrailOk(n)
    ensures Ahead(n) >= 0
  {
    FinalizedInOrder(n);
  }

  /** The current blob is stored and recorded. */
  lemma RecordCurrent(cfg: Config, n: Node, peer: PeerId) returns (more: seq<Step>, m: Node)
    requires ValidConfig(cfg) && cfg.window > 0 && Reachable(cfg, n) && n.pipe.current.Some? && n.toBridge == []
    requires n.now + 32_000 <= cfg.maxInstant
    ensures Reaches(cfg, n, more, m) && m.now <= n.now + 31_000
    ensures Ahead(m) < Ahead(n)
  {
    var ticket := n.pipe.current.value.ticket;
    ReachableTrail(cfg, n);
    if HasLeft(n, ticket) {
      LeftIsNotCurrent(n, ticket);
    }
    var k, drain;
    more, k := StoreCurrent(cfg, n, ticket, peer);
    drain, m := Drain(cfg, k);
    ReachesOn(cfg, n, more, k, drain, m);
    more := more + drain;
    LongerBy(n.log.done, m.log.done, ticket);
  }

  /** With no blob current, whatever is not recorded yet waits in the channel. */
  lemma WaitsInChannel(n: Node, t: nat)
    requires TrailOk(n) && n.pipe == n.pipe.(current := None, pending := []) && n.toBridge == []
    requires t in n.log.sent && t !in n.log.done
    ensures n.admission != []
  {
    assert PipeTickets(n.pipe) == [];
    assert n.admission == [] ==> Trail(n) == n.log.done;
  }

  /** One blob nearer to `t`, or one message. */
  lemma Approach(cfg: Config, n: Node, t: nat, peer: PeerId) returns (more: seq<Step>, m: Node)
    requires ValidConfig(cfg) && cfg.window > 0 && Reachable(cfg, n) && n.toBridge == []
    requires t in n.log.sent && t !in n.log.done && n.now + 32_000 <= cfg.maxInstant
    ensures Leads(cfg, n, more, m) && Reachable(cfg, m) && m.log.sent == n.log.sent && Ahead(m) >= 0
    ensures m.requests == n.requests && m.statusMap.Keys == n.statusMap.Keys
    ensures (Ahead(m) < Ahead(n) && m.now <= n.now + 31_000)
            || (Ahead(m) == Ahead(n) && |m.admission| < |n.admission| && m.now == n.now)
  {
    if n.pipe.current.Some? {
      more, m := RecordCurrent(cfg, n, peer);
    } else {
      ReachableTrail(cfg, n);
      ReachableBlobs(cfg, n);
      WaitsInChannel(n, t);
      ReachableStep(cfg, n, ReceiveAdmission);
      m := Apply(cfg, n, ReceiveAdmission);
      LeadsNowhere(cfg, m);
      LeadsFrom(cfg, n, ReceiveAdmission, [], m);
      more := [ReceiveAdmission] + [];
    }
    ReachableTrail(cfg, m);
    TrailBounds(m);
  }

  lemma NotRecorded(n: Node, t: nat)
    requires TrailOk(n) && t in n.log.sent && t !in n.log.done
    ensures Ahead(n) > 0
  {
    FinalizedInOrder(n);
    LongerBy(n.log.done, n.log.sent, t);
  }

  lemma {:induction false} StoreAny(cfg: Config, n: Node, t: nat, peer: PeerId) returns (more: seq<Step>, m: Node)
    requires ValidConfig(cfg) && cfg.window > 0 && Reachable(cfg, n) && t in n.log.sent && Ahead(n) >= 0
    requires n.now + 32_000 * Ahead(n) <= cfg.maxInstant
    ensures Leads(cfg, n, more, m) && Reachable(cfg, m) && t in m.log.done && m.log.sent == n.log.sent
    ensures m.requests == n.requests && m.statusMap.Keys == n.statusMap.Keys
    ensures m.now <= n.now + 32_000 * (Ahead(n) - Ahead(m))
    decreases Ahead(n), |n.admission|
  {
    more, m := Drain(cfg, n);
    if t !in m.log.done {
      ReachableTrail(cfg, m);
      NotRecorded(m, t);
      var near, k := Approach(cfg, m, t, peer);
      var rest, l := StoreAny(cfg, k, t, peer);
      LeadsOn(cfg, m, near, k, rest, l);
      LeadsOn(cfg, n, more, m, near + rest, l);
      more, m := more + (near + rest), l;
    }
  }

  /** From every reachable state, every blob that was handed over can still be stored and
      recorded as finalized, given 32 seconds of clock for each blob not recorded yet. */
  lemma EveryBlobCanBeStored(cfg: Config, steps: seq<Step>, t: nat, peer: PeerId) returns (more: seq<Step>)
    requires ValidConfig(cfg) && cfg.window > 0 && Run(cfg, steps).Some?
    requires var n := Run(cfg, steps).value;
             t in n.log.sent && n.now + 32_000 * (|n.log.sent| - |n.log.done|) <= cfg.maxInstant
    ensures Run(cfg, steps + more).Some? && t in Run(cfg, steps + more).value.log.done
  {
    AlwaysOnTrail(cfg, steps);
    var n := Run(cfg, steps).value;
    TrailBounds(n);
    var m;
    more, m := StoreAny(cfg, n, t, peer);
  }
}
