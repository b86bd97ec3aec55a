/** Exactly when attempts can overlap, exactly when Finalized is final, and how long a permit
    stays as it was issued. None of it needs the run to be timely. Updates are handled in the
    order in which they were sent, so a failure that is handled only after the blob is
    complete does no harm; `Threatened` says which failures come in time to do some. */
module Finality {
  import opened Prelude
  import opened Coordinator
  import opened Node
  import opened Order
  import opened Attempts
  import opened Timing

  // ---------------------------------------------------------------- rounds, and overlapping attempts

  lemma {:induction false} SomeOrder<T(!new)>(elements: set<T>) returns (order: seq<T>)
    ensures Enumerates(order, elements)
  {
    if elements == {} {
      order := [];
    } else {
      var x :| x in elements;
      var rest := SomeOrder(elements - {x});
      order := [x] + rest;
      forall y ensures y in order <==> y in elements {
        assert y in order <==> y == x || y in rest;
      }
      assert x !in rest;
    }
  }

  /** Any due chunk may be the first that a round deals out. */
  lemma ScheduleFor(chunks: map<Hash, Chunk>, now: Instant, slots: nat, peers: seq<PeerId>, h: Hash)
    returns (spawned: seq<Upload>)
    requires peers != [] && slots > 0 && h in EligibleChunks(chunks, now)
    ensures Schedules(chunks, now, slots, peers, spawned)
    ensures spawned != [] && spawned[0].hash == h
  {
    var due := EligibleChunks(chunks, now);
    var rest := SomeOrder(due - {h});
    var order := [h] + rest;
    assert h !in rest;
    forall x ensures x in order <==> x in due {
      assert x in order <==> x == h || x in rest;
    }
    EnumerationLength(order, due);
    forall k | 0 <= k < |order| ensures order[k] in chunks {
      assert order[k] in order;
    }
    spawned := seq(Min(slots, |due|), k requires 0 <= k < |order| =>
      Upload(order[k], chunks[order[k]].data, peers[k % |peers|]));
  }

  /** A round of assignment can always be carried out. */
  lemma SomeRound(p: PipelineState, now: Instant, slots: nat) returns (peers: seq<PeerId>, spawned: seq<Upload>)
    ensures Assigns(p, now, slots, peers, spawned)
  {
    peers, spawned := [], [];
    if slots > 0 && p.current.Some? && EligiblePeers(p.permits, now) != {} {
      peers := SomeOrder(EligiblePeers(p.permits, now));
      EnumerationLength(peers, EligiblePeers(p.permits, now));
      var due := EligibleChunks(p.current.value.chunks, now);
      if h :| h in due {
        spawned := ScheduleFor(p.current.value.chunks, now, slots, peers, h);
      }
    }
  }

  /** The next update can be handled as long as the bridge has room for what it reports. */
  lemma SomeUpdate(cfg: Config, n: Node, i: nat) returns (step: Step)
    requires ValidConfig(cfg) && IsNext(n, i)
    requires EffectOf(n, i).stored.Some? ==> |n.toBridge| < BRIDGE_CAPACITY
    ensures step.Update? && step.i == i && Enabled(cfg, n, step)
    ensures var e, m, s := EffectOf(n, i), Apply(cfg, n, step), Settle(n, i);
            && |step.spawned| <= n.freeSlots
            && m == if e.reassign then Spawn(s, s.pipe, step.spawned) else s
    ensures EffectOf(n, i).reassign ==> Assigns(EffectOf(n, i).pipe, n.now, n.freeSlots, step.peers, step.spawned)
  {
    var peers, spawned := [], [];
    if EffectOf(n, i).reassign {
      peers, spawned := SomeRound(EffectOf(n, i).pipe, n.now, n.freeSlots);
    }
    step := Update(i, peers, spawned);
  }

  /** The timer may start an upload of `h` now. */
  ghost predicate MayStart(cfg: Config, n: Node, h: Hash)
    requires ValidConfig(cfg)
  {
    exists peers: seq<PeerId>, spawned: seq<Upload> ::
      Enabled(cfg, n, AssignTimer(peers, spawned)) && exists k :: 0 <= k < |spawned| && spawned[k].hash == h
  }

  /** A chunk may be started exactly when it is due, a slot is free, and a permit holds. */
  lemma MayStartExactly(cfg: Config, n: Node, h: Hash)
    requires ValidConfig(cfg)
    ensures MayStart(cfg, n, h) <==>
              && n.freeSlots > 0 && EligiblePeers(n.pipe.permits, n.now) != {}
              && n.pipe.current.Some? && h in EligibleChunks(n.pipe.current.value.chunks, n.now)
  {
    if n.freeSlots > 0 && EligiblePeers(n.pipe.permits, n.now) != {}
       && n.pipe.current.Some? && h in EligibleChunks(n.pipe.current.value.chunks, n.now)
    {
      var peers := SomeOrder(EligiblePeers(n.pipe.permits, n.now));
      EnumerationLength(peers, EligiblePeers(n.pipe.permits, n.now));
      var spawned := ScheduleFor(n.pipe.current.value.chunks, n.now, n.freeSlots, peers, h);
      assert Enabled(cfg, n, AssignTimer(peers, spawned)) && spawned[0].hash == h;
    }
  }

  /** A second attempt for the chunk of an outstanding one may start exactly if 31 seconds
      have passed since the first was assigned, a slot is free, and a permit holds. */
  lemma OverlapExactly(cfg: Config, n: Node, i: nat)
    requires ValidConfig(cfg) && TasksOk(n) && i < |n.tasks|
    requires Outstanding(n.tasks[i]) && Matches(n.pipe, n.tasks[i])
    ensures MayStart(cfg, n, n.tasks[i].hash) <==>
              && n.now >= n.tasks[i].at + (CHUNK_UPLOAD_WINDOW + 1) * MILLIS
              && n.freeSlots > 0 && EligiblePeers(n.pipe.permits, n.now) != {}
  {
    MayStartExactly(cfg, n, n.tasks[i].hash);
    OutstandingIsDueFrom31Seconds(n, i);
  }

  // ---------------------------------------------------------------- Finalized

  predicate IsCurrent(n: Node, ticket: nat) {
    n.pipe.current.Some? && n.pipe.current.value.ticket == ticket
  }

  predicate IsFinal(n: Node, h: Hash) {
    n.pipe.current.Some? && h in n.pipe.current.value.chunks && n.pipe.current.value.chunks[h].status.Finalized?
  }

  /** The blob was reported as stored. */
  predicate HasLeft(n: Node, ticket: nat) {
    ticket in n.log.done + UpdateTickets(n.toBridge)
  }

  lemma LeftForGood(cfg: Config, n: Node, step: Step, ticket: nat)
    requires ValidConfig(cfg) && Enabled(cfg, n, step) && HasLeft(n, ticket)
    ensures HasLeft(Apply(cfg, n, step), ticket)
  {
    var m := Apply(cfg, n, step);
    match step
    case ReceiveStatus =>
      assert UpdateTickets(n.toBridge) == [n.toBridge[0].ticket] + UpdateTickets(m.toBridge);
    case Update(i, _, _) =>
      assert UpdateTickets(m.toBridge)[..|n.toBridge|] == UpdateTickets(n.toBridge);
    case _ =>
  }

  /** What left is not current again. */
  lemma LeftIsNotCurrent(n: Node, ticket: nat)
    requires TrailOk(n) && HasLeft(n, ticket)
    ensures !IsCurrent(n, ticket)
  {
    var gone := n.log.done + UpdateTickets(n.toBridge);
    var k :| 0 <= k < |gone| && gone[k] == ticket;
    assert n.log.sent[k] == ticket;
    if n.pipe.current.Some? {
      assert n.log.sent[|gone|] == n.pipe.current.value.ticket;
    }
  }

  /** What an update says: the chunk arrived, or its attempt failed. */
  datatype News = News(hash: Hash, ok: bool)

  function NewsOf(t: Task): News {
    News(t.hash, t.phase.Reported? && t.phase.status.Finalized?)
  }

  /** The updates in the channel, oldest first. */
  ghost function Mail(n: Node): seq<News>
    requires InboxOk(n)
  {
    seq(|n.inbox|, k requires 0 <= k < |n.inbox| => NewsOf(n.tasks[n.inbox[k]]))
  }

  /** What is left of a blob with the chunks `all`, after an update. */
  function LeftAfter(all: set<Hash>, left: set<Hash>, x: News): set<Hash> {
    if x.hash !in all then left else if x.ok then left - {x.hash} else left + {x.hash}
  }

  /** At some success on the way, nothing is left. */
  predicate Completes(all: set<Hash>, left: set<Hash>, news: seq<News>)
    decreases |news|
  {
    news != [] &&
    var rest := LeftAfter(all, left, news[0]);
    (news[0].hash in all && news[0].ok && rest == {}) || Completes(all, rest, news[1..])
  }

  lemma {:induction false} CompletesAnyway(all: set<Hash>, left: set<Hash>, news: seq<News>, more: seq<News>)
    requires Completes(all, left, news)
    ensures Completes(all, left, news + more)
    decreases |news|
  {
    var rest := LeftAfter(all, left, news[0]);
    assert (news + more)[1..] == news[1..] + more;
    if !(news[0].hash in all && news[0].ok && rest == {}) {
      CompletesAnyway(all, rest, news[1..], more);
    }
  }

  /** The first `k` updates in the channel complete the current blob. */
  ghost predicate Completed(n: Node, k: nat)
    requires InboxOk(n) && n.pipe.current.Some? && k <= |n.inbox|
  {
    var chunks := n.pipe.current.value.chunks;
    Completes(chunks.Keys, Unfinished(chunks), Mail(n)[..k])
  }

  /** An attempt that may yet report a failure. */
  predicate MayFail(t: Task) {
    t.phase.Running? || t.phase == Reported(Pending)
  }

  /** The news of a failure of `h` is the `k`-th in the channel, and the blob is not complete
      before. */
  ghost predicate ThreatAt(n: Node, h: Hash, k: nat)
    requires InboxOk(n) && n.pipe.current.Some?
  {
    k < |n.inbox| && Mail(n)[k] == News(h, false) && !Completed(n, k)
  }

  /** An attempt for `h` that has not sent its update may still fail. */
  predicate MayComeToFail(n: Node, h: Hash) {
    exists i :: 0 <= i < |n.tasks| && n.tasks[i].hash == h && MayFail(n.tasks[i]) && i !in n.inbox
  }

  /** A failure of `h` can reach the coordinator before the current blob is complete: it is in
      the channel, and nothing ahead of it completes the blob, or it may still be sent, and
      nothing in the channel completes the blob. */
  ghost predicate Threatened(n: Node, h: Hash) {
    && InboxOk(n) && n.pipe.current.Some?
    && ((exists k :: ThreatAt(n, h, k)) || (MayComeToFail(n, h) && !Completed(n, |n.inbox|)))
  }

  ghost predicate Lasting(n: Node, ticket: nat, h: Hash) {
    HasLeft(n, ticket) || (IsCurrent(n, ticket) && IsFinal(n, h) && InboxOk(n) && !Threatened(n, h))
  }

  /** What is threatened depends on this much of the state. */
  lemma SameThreats(n: Node, m: Node, h: Hash)
    requires InboxOk(n) && InboxOk(m) && n.pipe.current.Some? && m.pipe.current.Some?
    requires m.pipe.current.value.chunks.Keys == n.pipe.current.value.chunks.Keys
    requires Unfinished(m.pipe.current.value.chunks) == Unfinished(n.pipe.current.value.chunks)
    requires Mail(m) == Mail(n) && (MayComeToFail(m, h) ==> MayComeToFail(n, h))
    requires !Threatened(n, h)
    ensures !Threatened(m, h)
  {
    assert |m.inbox| == |Mail(m)| == |n.inbox|;
    forall k: nat ensures !ThreatAt(m, h, k) {
      assert !ThreatAt(n, h, k);
    }
  }

  lemma SpawnKeepsLasting(n: Node, p: PipelineState, peers: seq<PeerId>, spawned: seq<Upload>, h: Hash)
    requires Assigns(p, n.now, n.freeSlots, peers, spawned) && |spawned| <= n.freeSlots
    requires IsFinal(n.(pipe := p), h) && InboxOk(n) && !Threatened(n.(pipe := p), h)
    ensures var m := Spawn(n, p, spawned);
            IsCurrent(m, p.current.value.ticket) && IsFinal(m, h) && InboxOk(m) && !Threatened(m, h)
  {
    var m := Spawn(n, p, spawned);
    SpawnSpares(p, n.now, n.freeSlots, peers, spawned, h);
    SpawnKeepsUnfinished(p, n.now, n.freeSlots, peers, spawned);
    RetargetEffect(p.current.value.chunks, n.now, spawned);
    SpawnKeepsInbox(n, p, spawned);
    assert Mail(m) == Mail(n.(pipe := p));
    assert forall k | 0 <= k < |spawned| :: spawned[k].hash != h by {
      assert h !in EligibleChunks(p.current.value.chunks, n.now);
    }
    if i :| 0 <= i < |m.tasks| && m.tasks[i].hash == h && MayFail(m.tasks[i]) && i !in m.inbox {
      assert i < |n.tasks| && m.tasks[i] == n.tasks[i];
    }
    SameThreats(n.(pipe := p), m, h);
  }

  /** What the next update does to the current blob: it completes it, or leaves it with what
      `LeftAfter` says. */
  lemma SettleLeaves(n: Node, i: nat)
    requires TasksOk(n) && InboxOk(n) && IsNext(n, i) && n.pipe.current.Some?
    ensures var all := n.pipe.current.value.chunks.Keys;
            var rest := LeftAfter(all, Unfinished(n.pipe.current.value.chunks), NewsOf(n.tasks[i]));
            var m := Settle(n, i);
            if EffectOf(n, i).stored.Some? then
              NewsOf(n.tasks[i]).hash in all && NewsOf(n.tasks[i]).ok && rest == {}
              && HasLeft(m, n.pipe.current.value.ticket)
            else
              !(NewsOf(n.tasks[i]).hash in all && NewsOf(n.tasks[i]).ok && rest == {})
              && IsCurrent(m, n.pipe.current.value.ticket)
              && m.pipe.current.value.chunks.Keys == all && Unfinished(m.pipe.current.value.chunks) == rest
  {
    assert TaskOk(n, n.tasks[i]);
    var t := n.tasks[i];
    var chunks := n.pipe.current.value.chunks;
    if t.hash in chunks {
      var after := chunks[t.hash := Chunk(chunks[t.hash].data, t.phase.status, n.now)];
      assert after.Keys == chunks.Keys;
      assert Unfinished(after) == LeftAfter(chunks.Keys, Unfinished(chunks), NewsOf(t));
      assert Unfinished(after) == {} ==> AllFinalized(after) by {
        assert forall h | h in after && !after[h].status.Finalized? :: h in Unfinished(after);
      }
    }
    if EffectOf(n, i).stored.Some? {
      assert UpdateTickets(Settle(n, i).toBridge)[|n.toBridge|] == n.pipe.current.value.ticket;
    }
  }

  lemma SettleTakesMail(n: Node, i: nat)
    requires InboxOk(n) && IsNext(n, i)
    ensures InboxOk(Settle(n, i)) && Mail(n) == [NewsOf(n.tasks[i])] + Mail(Settle(n, i))
  {
    SettleKeepsInbox(n, i);
    var m := Settle(n, i);
    forall k | 0 <= k < |m.inbox| ensures Mail(m)[k] == Mail(n)[k + 1] {
      assert m.inbox[k] == n.inbox[k + 1] != i;
    }
  }

  /** What the rest of the channel completes, once the next update is handled. */
  lemma SettleKeepsCompletion(n: Node, i: nat, k: nat)
    requires TasksOk(n) && InboxOk(n) && IsNext(n, i) && n.pipe.current.Some? && k < |n.inbox|
    requires EffectOf(n, i).stored.None?
    ensures var m := Settle(n, i);
            InboxOk(m) && m.pipe.current.Some? && (Completed(m, k) <==> Completed(n, k + 1))
  {
    SettleLeaves(n, i);
    SettleTakesMail(n, i);
    var m := Settle(n, i);
    assert Mail(n)[..k + 1] == [NewsOf(n.tasks[i])] + Mail(m)[..k];
    assert ([NewsOf(n.tasks[i])] + Mail(m)[..k])[1..] == Mail(m)[..k];
  }

  /** Handling an update brings no new threat. */
  lemma SettleThreatensNothing(n: Node, i: nat, h: Hash)
    requires TasksOk(n) && InboxOk(n) && IsNext(n, i) && n.pipe.current.Some? && !Threatened(n, h)
    requires EffectOf(n, i).stored.None?
    ensures InboxOk(Settle(n, i)) && !Threatened(Settle(n, i), h)
  {
    var m := Settle(n, i);
    SettleKeepsCompletion(n, i, |m.inbox|);
    SettleTakesMail(n, i);
    forall k: nat ensures !ThreatAt(m, h, k) {
      if k < |m.inbox| {
        SettleKeepsCompletion(n, i, k);
        assert !ThreatAt(n, h, k + 1);
      }
    }
    if j :| 0 <= j < |m.tasks| && m.tasks[j].hash == h && MayFail(m.tasks[j]) && j !in m.inbox {
      assert n.inbox == [i] + m.inbox && j !in n.inbox;
      assert n.tasks[j] == m.tasks[j];
    }
  }

  lemma SettleKeepsLasting(n: Node, i: nat, h: Hash)
    requires TasksOk(n) && InboxOk(n) && IsNext(n, i) && IsFinal(n, h) && !Threatened(n, h)
    ensures var m := Settle(n, i);
            if EffectOf(n, i).stored.Some? then HasLeft(m, n.pipe.current.value.ticket)
            else IsCurrent(m, n.pipe.current.value.ticket) && IsFinal(m, h) && InboxOk(m) && !Threatened(m, h)
  {
    SettleLeaves(n, i);
    if EffectOf(n, i).stored.None? {
      SettleThreatensNothing(n, i, h);
      assert !ThreatAt(n, h, 0) && !Completed(n, 0);
      assert Mail(n)[0] == NewsOf(n.tasks[i]);
      assert h !in Unfinished(Settle(n, i).pipe.current.value.chunks);
    }
  }

  /** An update that is sent comes after all others. */
  lemma PostKeepsLasting(n: Node, i: nat, h: Hash)
    requires InboxOk(n) && IsFinal(n, h) && !Threatened(n, h)
    requires i < |n.tasks| && n.tasks[i].phase.Reported? && i !in n.inbox && TaskOk(n, n.tasks[i])
    ensures var m := n.(inbox := n.inbox + [i]);
            InboxOk(m) && !Threatened(m, h)
  {
    var m := n.(inbox := n.inbox + [i]);
    assert Mail(m) == Mail(n) + [NewsOf(n.tasks[i])];
    var chunks := n.pipe.current.value.chunks;
    assert Mail(n)[..|n.inbox|] == Mail(n) && Mail(m)[..|m.inbox|] == Mail(m);
    forall k: nat ensures !ThreatAt(m, h, k) {
      if k <= |n.inbox| {
        assert Mail(m)[..k] == Mail(n)[..k];
        assert !ThreatAt(n, h, k);
      }
    }
    if MayComeToFail(m, h) {
      assert MayComeToFail(n, h);
      CompletesAnyway(chunks.Keys, Unfinished(chunks), Mail(n), [NewsOf(n.tasks[i])]);
    }
  }

  lemma EndKeepsMail(n: Node, m: Node, i: nat)
    requires InboxOk(n) && i < |n.tasks| && n.tasks[i].phase.Running?
    requires |m.tasks| == |n.tasks| && m.tasks == n.tasks[i := m.tasks[i]] && m.inbox == n.inbox
    ensures InboxOk(m) && Mail(m) == Mail(n)
  {
    assert forall k | 0 <= k < |n.inbox| :: n.inbox[k] != i;
  }

  lemma EndKeepsLasting(n: Node, m: Node, i: nat, h: Hash)
    requires InboxOk(n) && IsFinal(n, h) && !Threatened(n, h) && i < |n.tasks| && n.tasks[i].phase.Running?
    requires |m.tasks| == |n.tasks| && m.tasks == n.tasks[i := m.tasks[i]] && m.inbox == n.inbox && m.pipe == n.pipe
    requires m.tasks[i].hash == n.tasks[i].hash
    ensures InboxOk(m) && !Threatened(m, h)
  {
    EndKeepsMail(n, m, i);
    SameThreats(n, m, h);
  }

  lemma PipelineKeepsLasting(cfg: Config, n: Node, step: Step, h: Hash)
    requires ValidConfig(cfg) && TasksOk(n) && Enabled(cfg, n, step) && !OffPipeline(step)
    requires InboxOk(n) && IsFinal(n, h) && !Threatened(n, h)
    ensures Lasting(Apply(cfg, n, step), n.pipe.current.value.ticket, h)
  {
    match step
    case AssignTimer(peers, spawned) => SpawnKeepsLasting(n, n.pipe, peers, spawned, h);
    case Permit(peer, validFor, peers, spawned) => PermitKeepsLasting(cfg, n, step, h);
    case Update(i, peers, spawned) => UpdateKeepsLasting(cfg, n, step, h);
    case TaskEnds(i, _) => EndKeepsLasting(n, Apply(cfg, n, step), i, h);
    case StaleTimer => SameThreats(n, n.(pipe := OnStaleTimer(n.pipe, n.now)), h);
    case WouldStore(peer) => SameThreats(n, n.(pipe := OnWouldStore(n.pipe, peer, n.now)), h);
    case ReceiveAdmission => SameThreats(n, DoReceiveAdmission(n), h);
  }

  lemma PermitKeepsLasting(cfg: Config, n: Node, step: Step, h: Hash)
    requires ValidConfig(cfg) && Enabled(cfg, n, step) && step.Permit?
    requires InboxOk(n) && IsFinal(n, h) && !Threatened(n, h)
    ensures Lasting(Apply(cfg, n, step), n.pipe.current.value.ticket, h)
  {
    var expiry := Expiry(n.now, step.validFor, cfg.maxInstant);
    var m := n.(log := n.log.(issued := n.log.issued[step.peer := expiry]));
    var p := OnPermit(n.pipe, step.peer, expiry);
    SameThreats(n, m.(pipe := p), h);
    SpawnKeepsLasting(m, p, step.peers, step.spawned, h);
  }

  lemma UpdateKeepsLasting(cfg: Config, n: Node, step: Step, h: Hash)
    requires ValidConfig(cfg) && TasksOk(n) && Enabled(cfg, n, step) && step.Update?
    requires InboxOk(n) && IsFinal(n, h) && !Threatened(n, h)
    ensures Lasting(Apply(cfg, n, step), n.pipe.current.value.ticket, h)
  {
    SettleKeepsLasting(n, step.i, h);
    var m := Settle(n, step.i);
    if EffectOf(n, step.i).reassign && EffectOf(n, step.i).stored.None? {
      SpawnKeepsLasting(m, m.pipe, step.peers, step.spawned, h);
    }
  }

  lemma LastingStep(cfg: Config, n: Node, step: Step, ticket: nat, h: Hash)
    requires ValidConfig(cfg) && TasksOk(n) && Enabled(cfg, n, step) && Lasting(n, ticket, h)
    ensures Lasting(Apply(cfg, n, step), ticket, h)
  {
    if HasLeft(n, ticket) {
      LeftForGood(cfg, n, step, ticket);
    } else if OffPipeline(step) {
      OffPipelineStep(cfg, n, step);
      InboxElsewhere(cfg, n, step);
      if step.Post? {
        assert TaskOk(n, n.tasks[step.i]);
        PostKeepsLasting(n, step.i, h);
      }
      InboxStep(cfg, n, step);
      SameThreats(if step.Post? then n.(inbox := n.inbox + [step.i]) else n, Apply(cfg, n, step), h);
    } else {
      PipelineKeepsLasting(cfg, n, step, h);
    }
  }

  lemma {:induction false} LastingRun(cfg: Config, steps: seq<Step>, more: seq<Step>, ticket: nat, h: Hash)
    requires ValidConfig(cfg) && Run(cfg, steps + more).Some?
    requires Run(cfg, steps).Some? && Lasting(Run(cfg, steps).value, ticket, h)
    requires forall k | 0 <= k <= |more| && Run(cfg, steps + more[..k]).Some? ::
               TasksOk(Run(cfg, steps + more[..k]).value)
    ensures Lasting(Run(cfg, steps + more).value, ticket, h)
  {
    if more == [] {
      assert steps + more == steps;
    } else {
      var last := |more| - 1;
      var front := more[..last];
      assert steps + more == (steps + front) + [more[last]];
      RunSnoc(cfg, steps + front, more[last]);
      forall k | 0 <= k <= |front| && Run(cfg, steps + front[..k]).Some?
        ensures TasksOk(Run(cfg, steps + front[..k]).value)
      {
        assert front[..k] == more[..k];
      }
      LastingRun(cfg, steps, front, ticket, h);
      assert steps + more[..last] == steps + front;
      LastingStep(cfg, Run(cfg, steps + front).value, more[last], ticket, h);
    }
  }

  // ---------------------------------------------------------------- how Finalized is undone

  /** The news of a failure takes Finalized back. */
  lemma FailureUndoes(cfg: Config, n: Node, i: nat)
    requires ValidConfig(cfg) && IsNext(n, i) && n.tasks[i].phase.status == Pending
    requires n.pipe.current.Some? && n.tasks[i].hash in n.pipe.current.value.chunks
    ensures Enabled(cfg, n, Update(i, [], []))
    ensures var m := Apply(cfg, n, Update(i, [], []));
            IsCurrent(m, n.pipe.current.value.ticket) && !IsFinal(m, n.tasks[i].hash)
  {
  }

  /** Handling an update brings a failure further back in the channel one nearer. */
  lemma SettleBringsThreat(n: Node, i: nat, h: Hash, k: nat)
    requires TasksOk(n) && InboxOk(n) && IsNext(n, i) && n.pipe.current.Some? && k > 0 && ThreatAt(n, h, k)
    ensures EffectOf(n, i).stored.None?
    ensures var m := Settle(n, i);
            && InboxOk(m) && IsCurrent(m, n.pipe.current.value.ticket) && ThreatAt(m, h, k - 1)
            && m.pipe.current.value.chunks.Keys == n.pipe.current.value.chunks.Keys
  {
    SettleLeaves(n, i);
    SettleTakesMail(n, i);
    assert Mail(n)[..k][0] == NewsOf(n.tasks[i]);
    SettleKeepsCompletion(n, i, k - 1);
  }

  lemma SpawnKeepsThreat(n: Node, p: PipelineState, peers: seq<PeerId>, spawned: seq<Upload>, h: Hash, k: nat)
    requires Assigns(p, n.now, n.freeSlots, peers, spawned) && |spawned| <= n.freeSlots
    requires InboxOk(n) && p.current.Some? && ThreatAt(n.(pipe := p), h, k)
    ensures var m := Spawn(n, p, spawned);
            && InboxOk(m) && IsCurrent(m, p.current.value.ticket) && ThreatAt(m, h, k)
            && m.pipe.current.value.chunks.Keys == p.current.value.chunks.Keys
  {
    SpawnKeepsInbox(n, p, spawned);
    SpawnKeepsUnfinished(p, n.now, n.freeSlots, peers, spawned);
    RetargetEffect(p.current.value.chunks, n.now, spawned);
    assert Mail(Spawn(n, p, spawned)) == Mail(n.(pipe := p));
  }

  /** The next update is handled, and the failure is one nearer. */
  lemma ApproachFailure(cfg: Config, n: Node, h: Hash, k: nat) returns (step: Step)
    requires ValidConfig(cfg) && TasksOk(n) && InboxOk(n) && n.pipe.current.Some? && k > 0 && ThreatAt(n, h, k)
    ensures Enabled(cfg, n, step)
    ensures var m := Apply(cfg, n, step);
            && TasksOk(m) && InboxOk(m) && IsCurrent(m, n.pipe.current.value.ticket) && ThreatAt(m, h, k - 1)
            && m.pipe.current.value.chunks.Keys == n.pipe.current.value.chunks.Keys
  {
    var i := n.inbox[0];
    SettleBringsThreat(n, i, h, k);
    step := SomeUpdate(cfg, n, i);
    TasksStep(cfg, n, step);
    if EffectOf(n, i).reassign {
      SpawnKeepsThreat(Settle(n, i), Settle(n, i).pipe, step.peers, step.spawned, h, k - 1);
    }
  }

  lemma FailureArrives(cfg: Config, n: Node, h: Hash) returns (step: Step)
    requires ValidConfig(cfg) && TasksOk(n) && InboxOk(n) && n.pipe.current.Some? && ThreatAt(n, h, 0)
    requires h in n.pipe.current.value.chunks
    ensures Enabled(cfg, n, step)
    ensures var m := Apply(cfg, n, step);
            IsCurrent(m, n.pipe.current.value.ticket) && !IsFinal(m, h)
  {
    var i := n.inbox[0];
    assert TaskOk(n, n.tasks[i]) && Mail(n)[0] == NewsOf(n.tasks[i]);
    FailureUndoes(cfg, n, i);
    step := Update(i, [], []);
  }

  /** A failure in the channel that nothing ahead of it makes harmless is handled, and undoes
      Finalized. */
  lemma {:induction false} CanFall(cfg: Config, n: Node, h: Hash, k: nat) returns (more: seq<Step>, m: Node)
    requires ValidConfig(cfg) && TasksOk(n) && InboxOk(n)
    requires n.pipe.current.Some? && h in n.pipe.current.value.chunks && ThreatAt(n, h, k)
    ensures Leads(cfg, n, more, m)
    ensures IsCurrent(m, n.pipe.current.value.ticket) && !IsFinal(m, h)
    decreases k
  {
    var step;
    if k == 0 {
      step := FailureArrives(cfg, n, h);
      more, m := [], Apply(cfg, n, step);
      LeadsNowhere(cfg, m);
    } else {
      step := ApproachFailure(cfg, n, h, k);
      more, m := CanFall(cfg, Apply(cfg, n, step), h, k - 1);
    }
    LeadsFrom(cfg, n, step, more, m);
    more := [step] + more;
  }

  lemma FailureIsSent(cfg: Config, n: Node, i: nat)
    requires ValidConfig(cfg) && TasksOk(n) && InboxOk(n) && n.pipe.current.Some? && !Completed(n, |n.inbox|)
    requires i < |n.tasks| && n.tasks[i].phase == Reported(Pending) && i !in n.inbox
    ensures Enabled(cfg, n, Post(i))
    ensures var m := Apply(cfg, n, Post(i));
            TasksOk(m) && InboxOk(m) && m.pipe == n.pipe && ThreatAt(m, n.tasks[i].hash, |n.inbox|)
  {
    TasksStep(cfg, n, Post(i));
    InboxStep(cfg, n, Post(i));
    var m := Apply(cfg, n, Post(i));
    assert Mail(m) == Mail(n) + [NewsOf(n.tasks[i])];
    assert Mail(m)[..|n.inbox|] == Mail(n)[..|n.inbox|];
  }

  lemma UploadMayFail(cfg: Config, n: Node, i: nat)
    requires ValidConfig(cfg) && TasksOk(n) && InboxOk(n) && n.pipe.current.Some? && !Completed(n, |n.inbox|)
    requires i < |n.tasks| && n.tasks[i].phase.Running?
    ensures Enabled(cfg, n, TaskEnds(i, PushErr))
    ensures var m := Apply(cfg, n, TaskEnds(i, PushErr));
            && TasksOk(m) && InboxOk(m) && m.pipe == n.pipe && m.inbox == n.inbox && !Completed(m, |m.inbox|)
            && i !in m.inbox && |m.tasks| == |n.tasks| && m.tasks[i] == n.tasks[i].(phase := Reported(Pending))
  {
    TasksStep(cfg, n, TaskEnds(i, PushErr));
    EndKeepsMail(n, Apply(cfg, n, TaskEnds(i, PushErr)), i);
  }

  /** An attempt that may still fail can be made to. */
  lemma CanFail(cfg: Config, n: Node, i: nat) returns (more: seq<Step>, m: Node)
    requires ValidConfig(cfg) && TasksOk(n) && InboxOk(n) && n.pipe.current.Some? && !Completed(n, |n.inbox|)
    requires i < |n.tasks| && MayFail(n.tasks[i]) && i !in n.inbox
    ensures Leads(cfg, n, more, m) && TasksOk(m) && InboxOk(m) && m.pipe == n.pipe
    ensures !Completed(m, |m.inbox|) && i !in m.inbox
    ensures |m.tasks| == |n.tasks| && m.tasks[i] == n.tasks[i].(phase := Reported(Pending))
  {
    more, m := [], n;
    LeadsNowhere(cfg, n);
    if n.tasks[i].phase.Running? {
      var fail := TaskEnds(i, PushErr);
      UploadMayFail(cfg, n, i);
      m := Apply(cfg, n, fail);
      LeadsNowhere(cfg, m);
      LeadsFrom(cfg, n, fail, [], m);
      more := [fail] + [];
    }
  }

  /** And its failure can be sent, and undoes Finalized if nothing completes the blob before. */
  lemma CanFailAndFall(cfg: Config, n: Node, h: Hash) returns (more: seq<Step>, m: Node)
    requires ValidConfig(cfg) && TasksOk(n) && InboxOk(n)
    requires n.pipe.current.Some? && h in n.pipe.current.value.chunks
    requires MayComeToFail(n, h) && !Completed(n, |n.inbox|)
    ensures Leads(cfg, n, more, m)
    ensures IsCurrent(m, n.pipe.current.value.ticket) && !IsFinal(m, h)
  {
    var i: nat :| i < |n.tasks| && n.tasks[i].hash == h && MayFail(n.tasks[i]) && i !in n.inbox;
    var fail, f := CanFail(cfg, n, i);
    FailureIsSent(cfg, f, i);
    var rest;
    rest, m := CanFall(cfg, Apply(cfg, f, Post(i)), h, |f.inbox|);
    LeadsFrom(cfg, f, Post(i), rest, m);
    LeadsOn(cfg, n, fail, f, [Post(i)] + rest, m);
    more := fail + ([Post(i)] + rest);
  }

  /** What threatens a chunk can happen, while the blob is still current. */
  lemma ThreatStrikes(cfg: Config, n: Node, h: Hash) returns (more: seq<Step>, m: Node)
    requires ValidConfig(cfg) && TasksOk(n) && IsFinal(n, h) && Threatened(n, h)
    ensures Leads(cfg, n, more, m)
    ensures IsCurrent(m, n.pipe.current.value.ticket) && !IsFinal(m, h)
  {
    if k: nat :| ThreatAt(n, h, k) {
      more, m := CanFall(cfg, n, h, k);
    } else {
      more, m := CanFailAndFall(cfg, n, h);
    }
  }

  /** From now on, whatever happens, either the blob has been reported as stored, or it is
      still current and `h` is Finalized. */
  ghost predicate StaysFinal(cfg: Config, steps: seq<Step>, ticket: nat, h: Hash)
    requires ValidConfig(cfg)
  {
    forall more | Run(cfg, steps + more).Some? ::
      var m := Run(cfg, steps + more).value;
      HasLeft(m, ticket) || (IsCurrent(m, ticket) && IsFinal(m, h))
  }

  /** Where no attempt for a chunk may still report a failure, nothing threatens it. */
  lemma NothingToFear(n: Node, h: Hash)
    requires forall i | 0 <= i < |n.tasks| && n.tasks[i].hash == h && Outstanding(n.tasks[i]) ::
               n.tasks[i].phase.Reported? && n.tasks[i].phase.status.Finalized?
    ensures !Threatened(n, h)
  {
    if InboxOk(n) && n.pipe.current.Some? {
      forall k: nat ensures !ThreatAt(n, h, k) {
        if k < |n.inbox| {
          assert Mail(n)[k] == NewsOf(n.tasks[n.inbox[k]]);
        }
      }
    }
  }

  /** With all attempts matched, none threatens a Finalized chunk. */
  lemma HealthyIsUnthreatened(n: Node, h: Hash)
    requires Healthy(n) && IsFinal(n, h)
    ensures !Threatened(n, h)
  {
    forall i | 0 <= i < |n.tasks| && Outstanding(n.tasks[i]) ensures n.tasks[i].hash != h {
      assert Matches(n.pipe, n.tasks[i]);
    }
    NothingToFear(n, h);
  }

  // ---------------------------------------------------------------- permits

  /** Only a newer permit of the same peer changes what was issued to it. */
  lemma IssuedStays(cfg: Config, n: Node, step: Step, peer: PeerId)
    requires ValidConfig(cfg) && Enabled(cfg, n, step) && peer in n.log.issued
    requires step.Permit? ==> step.peer != peer
    ensures var m := Apply(cfg, n, step);
            peer in m.log.issued && m.log.issued[peer] == n.log.issued[peer] && m.now >= n.now
  {
  }

  lemma IssuedNow(cfg: Config, n: Node, step: Step)
    requires ValidConfig(cfg) && Enabled(cfg, n, step) && step.Permit?
    ensures var m := Apply(cfg, n, step);
            && step.peer in m.log.issued && m.log.issued[step.peer] == Expiry(n.now, step.validFor, cfg.maxInstant)
            && m.now == n.now
  {
  }

  lemma {:induction false} IssuedStaysRun(cfg: Config, steps: seq<Step>, more: seq<Step>, peer: PeerId)
    requires ValidConfig(cfg) && Run(cfg, steps).Some? && Run(cfg, steps + more).Some?
    requires peer in Run(cfg, steps).value.log.issued
    requires forall k | 0 <= k < |more| && more[k].Permit? :: more[k].peer != peer
    ensures var n, m := Run(cfg, steps).value, Run(cfg, steps + more).value;
            peer in m.log.issued && m.log.issued[peer] == n.log.issued[peer] && m.now >= n.now
  {
    if more == [] {
      assert steps + more == steps;
    } else {
      var last := |more| - 1;
      assert steps + more == (steps + more[..last]) + [more[last]];
      RunSnoc(cfg, steps + more[..last], more[last]);
      IssuedStaysRun(cfg, steps, more[..last], peer);
      IssuedStays(cfg, Run(cfg, steps + more[..last]).value, more[last], peer);
    }
  }
}
