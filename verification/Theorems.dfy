/** The guarantees of the node, for every run. */
module Theorems {
  import opened Prelude
  import opened Chunking
  import opened Coordinator
  import opened Node
  import opened Custody
  import opened Budget
  import opened Order
  import opened Attempts
  import opened Timing
  import opened Finality
  import opened PermitTable
  import R = Reservations
  import Bridge
  import Frames
  import Session
  import Transfer

  /** All that holds in every reachable state, whatever the timing. */
  ghost predicate Safe(cfg: Config, n: Node)
    requires ValidConfig(cfg)
  {
    && RequestsOk(cfg, n) && BlobsOk(cfg, n) && SlotsOk(n) && BudgetOk(n) && TrailOk(n)
    && TasksOk(n) && InboxOk(n) && CargoOk(cfg, n)
    && PushesOk(cfg, n) && CurrentPushed(n, n.pipe) && ReportedPushed(cfg, n)
    && PermitsOk(n) && R.OwnersOk(n)
  }

  lemma SafeStep(cfg: Config, n: Node, step: Step)
    requires ValidConfig(cfg) && Safe(cfg, n) && Enabled(cfg, n, step)
    ensures Safe(cfg, Apply(cfg, n, step))
  {
    RequestsStep(cfg, n, step);
    BlobsStep(cfg, n, step);
    SlotsStep(cfg, n, step);
    RequestsHoldOnlyStreaming(cfg, n);
    BudgetStep(cfg, n, step);
    TrailStep(cfg, n, step);
    TasksStep(cfg, n, step);
    InboxStep(cfg, n, step);
    CargoStep(cfg, n, step);
    PushesStep(cfg, n, step);
    CurrentPushedStep(cfg, n, step);
    ReportedStep(cfg, n, step);
    PermitsStep(cfg, n, step);
    R.OwnersStep(cfg, n, step);
  }

  lemma StartOnTrail()
    ensures TrailOk(Start())
  {
    assert Trail(Start()) == [];
  }

  lemma StartBalances()
    ensures SlotsOk(Start()) && BudgetOk(Start())
  {
  }

  lemma StartHoldsNothing(cfg: Config)
    requires ValidConfig(cfg)
    ensures RequestsOk(cfg, Start()) && BlobsOk(cfg, Start()) && R.OwnersOk(Start())
    ensures TasksOk(Start()) && InboxOk(Start()) && CargoOk(cfg, Start()) && PushesOk(cfg, Start())
  {
  }

  lemma StartOwesNothing(cfg: Config)
    requires ValidConfig(cfg)
    ensures CurrentPushed(Start(), Start().pipe) && ReportedPushed(cfg, Start()) && PermitsOk(Start())
  {
  }

  lemma StartIsSafe(cfg: Config)
    requires ValidConfig(cfg)
    ensures Safe(cfg, Start())
  {
    StartOnTrail();
    StartBalances();
    StartHoldsNothing(cfg);
    StartOwesNothing(cfg);
  }

  lemma StartIsCoherent(cfg: Config)
    requires ValidConfig(cfg)
    ensures R.Coherent(cfg, Start()) && Healthy(Start()) && WorkOk(Start())
  {
    StartOnTrail();
  }

  lemma {:induction false} AlwaysSafe(cfg: Config, steps: seq<Step>)
    requires ValidConfig(cfg) && Run(cfg, steps).Some?
    ensures Safe(cfg, Run(cfg, steps).value)
  {
    if steps == [] {
      StartIsSafe(cfg);
    } else {
      var last := |steps| - 1;
      AlwaysSafe(cfg, steps[..last]);
      SafeStep(cfg, Run(cfg, steps[..last]).value, steps[last]);
    }
  }

  lemma AlwaysTasksOk(cfg: Config, steps: seq<Step>)
    requires ValidConfig(cfg) && Run(cfg, steps).Some?
    ensures TasksOk(Run(cfg, steps).value) && InboxOk(Run(cfg, steps).value)
  {
    AlwaysSafe(cfg, steps);
  }

  lemma AlwaysPushesOk(cfg: Config, steps: seq<Step>)
    requires ValidConfig(cfg) && Run(cfg, steps).Some?
    ensures PushesOk(cfg, Run(cfg, steps).value)
  {
    AlwaysSafe(cfg, steps);
  }

  lemma {:induction false} AlwaysCoherent(cfg: Config, steps: seq<Step>)
    requires ValidConfig(cfg) && R.StableRun(cfg, steps) && Run(cfg, steps).Some?
    ensures R.Coherent(cfg, Run(cfg, steps).value)
  {
    if steps == [] {
      StartIsCoherent(cfg);
    } else {
      var last := |steps| - 1;
      AlwaysCoherent(cfg, steps[..last]);
      R.CoherentStep(cfg, Run(cfg, steps[..last]).value, steps[last]);
    }
  }

  /** The books of the status map, and who was handed over. */
  lemma AlwaysBooksOk(cfg: Config, steps: seq<Step>)
    requires ValidConfig(cfg) && R.StableRun(cfg, steps) && Run(cfg, steps).Some?
    ensures R.BooksOk(cfg, Run(cfg, steps).value) && SentExactly(Run(cfg, steps).value)
  {
    AlwaysCoherent(cfg, steps);
    R.CoherentBooks(cfg, Run(cfg, steps).value);
  }

  lemma {:induction false} AlwaysHealthy(cfg: Config, steps: seq<Step>)
    requires ValidConfig(cfg) && TimelyRun(cfg, steps)
    ensures Healthy(Run(cfg, steps).value) && WorkOk(Run(cfg, steps).value)
  {
    if steps == [] {
      StartIsCoherent(cfg);
    } else {
      var last := |steps| - 1;
      AlwaysHealthy(cfg, steps[..last]);
      AlwaysSafe(cfg, steps[..last]);
      HealthyStep(cfg, Run(cfg, steps[..last]).value, steps[last]);
      WorkStep(cfg, Run(cfg, steps[..last]).value, steps[last]);
    }
  }

  // ---------------------------------------------------------------- upload attempts

  /** In a timely run no two attempts for a chunk are ever outstanding together, and every
      outstanding attempt's chunk belongs to the current blob and is in flight to the
      attempt's peer. In particular no update can reach a later blob. */
  lemma AttemptsNeverOverlap(cfg: Config, steps: seq<Step>, i: nat, j: nat)
    requires ValidConfig(cfg) && TimelyRun(cfg, steps)
    requires var n := Run(cfg, steps).value;
             i < |n.tasks| && j < |n.tasks| && Outstanding(n.tasks[i]) && Outstanding(n.tasks[j])
    ensures var n := Run(cfg, steps).value;
            && (n.tasks[i].hash == n.tasks[j].hash ==> i == j)
            && n.pipe.current.Some? && n.tasks[i].hash in n.pipe.current.value.chunks
            && n.pipe.current.value.chunks[n.tasks[i].hash].status == Inflight(n.tasks[i].to)
            && (n.tasks[i].phase.Reported? ==> n.tasks[i].phase.status in {Pending, Finalized(n.tasks[i].to)})
  {
    AlwaysHealthy(cfg, steps);
    AlwaysTasksOk(cfg, steps);
    OutstandingApart(Run(cfg, steps).value, i, j);
  }

  /** In a timely run a Finalized chunk stays so until its blob is complete and leaves. */
  lemma FinalizedIsNeverUndone(cfg: Config, steps: seq<Step>, step: Step, h: Hash)
    requires ValidConfig(cfg) && TimelyRun(cfg, steps) && Enabled(cfg, Run(cfg, steps).value, step)
    requires var p := Run(cfg, steps).value.pipe;
             p.current.Some? && h in p.current.value.chunks && p.current.value.chunks[h].status.Finalized?
    ensures var n := Run(cfg, steps).value;
            var m := Apply(cfg, n, step);
            var stored := if step.Update? then EffectOf(n, step.i).stored else None;
            if stored.Some? then AllFinalized(stored.value.chunks) && stored.value.ticket == n.pipe.current.value.ticket
            else m.pipe.current.Some? && h in m.pipe.current.value.chunks
                 && m.pipe.current.value.chunks[h] == n.pipe.current.value.chunks[h]
  {
    AlwaysTasksOk(cfg, steps);
    AlwaysHealthy(cfg, steps);
    FinalizedIsFinal(cfg, Run(cfg, steps).value, step, h);
  }

  /** When Finalized can be relied upon, timely or not: in every reachable state, a Finalized
      chunk stays so in every continuation until its blob is reported as stored, if and only
      if no failure of it can reach the coordinator before the blob is complete. */
  lemma FinalizedLastsExactly(cfg: Config, steps: seq<Step>, h: Hash)
    requires ValidConfig(cfg) && Run(cfg, steps).Some? && IsFinal(Run(cfg, steps).value, h)
    ensures var n := Run(cfg, steps).value;
            StaysFinal(cfg, steps, n.pipe.current.value.ticket, h) <==> !Threatened(n, h)
  {
    var n := Run(cfg, steps).value;
    var ticket := n.pipe.current.value.ticket;
    AlwaysTasksOk(cfg, steps);
    if !Threatened(n, h) {
      forall more | Run(cfg, steps + more).Some? ensures Lasting(Run(cfg, steps + more).value, ticket, h) {
        UnthreatenedLasts(cfg, steps, more, ticket, h);
      }
    } else {
      var more, m := ThreatStrikes(cfg, n, h);
      assert Run(cfg, steps + more) == Some(m);
      AlwaysOnTrail(cfg, steps + more);
      if HasLeft(m, ticket) {
        LeftIsNotCurrent(m, ticket);
      }
    }
  }

  lemma AlwaysOnTrail(cfg: Config, steps: seq<Step>)
    requires ValidConfig(cfg) && Run(cfg, steps).Some?
    ensures TrailOk(Run(cfg, steps).value)
  {
    AlwaysSafe(cfg, steps);
  }

  lemma UnthreatenedLasts(cfg: Config, steps: seq<Step>, more: seq<Step>, ticket: nat, h: Hash)
    requires ValidConfig(cfg) && Run(cfg, steps).Some? && Run(cfg, steps + more).Some?
    requires Lasting(Run(cfg, steps).value, ticket, h)
    ensures Lasting(Run(cfg, steps + more).value, ticket, h)
  {
    forall k | 0 <= k <= |more| && Run(cfg, steps + more[..k]).Some?
      ensures TasksOk(Run(cfg, steps + more[..k]).value)
    {
      AlwaysTasksOk(cfg, steps + more[..k]);
    }
    LastingRun(cfg, steps, more, ticket, h);
  }

  /** What a timely run has finalized is never undone, even if the run is late from then on. */
  lemma TimelyFinalizedLasts(cfg: Config, steps: seq<Step>, h: Hash)
    requires ValidConfig(cfg) && TimelyRun(cfg, steps) && IsFinal(Run(cfg, steps).value, h)
    ensures StaysFinal(cfg, steps, Run(cfg, steps).value.pipe.current.value.ticket, h)
  {
    AlwaysHealthy(cfg, steps);
    HealthyIsUnthreatened(Run(cfg, steps).value, h);
    FinalizedLastsExactly(cfg, steps, h);
  }

  /** When attempts can overlap: in every reachable state, while an attempt is outstanding and
      its chunk is as the attempt found it, the timer may start another attempt for that chunk
      if and only if the first was assigned at least 31 seconds ago, a slot is free, and some
      peer's permit holds. */
  lemma OverlapsExactly(cfg: Config, steps: seq<Step>, i: nat)
    requires ValidConfig(cfg) && Run(cfg, steps).Some?
    requires var n := Run(cfg, steps).value;
             i < |n.tasks| && Outstanding(n.tasks[i]) && Matches(n.pipe, n.tasks[i])
    ensures var n := Run(cfg, steps).value;
            MayStart(cfg, n, n.tasks[i].hash) <==>
              && n.now >= n.tasks[i].at + 31_000
              && n.freeSlots > 0 && EligiblePeers(n.pipe.permits, n.now) != {}
  {
    AlwaysTasksOk(cfg, steps);
    OverlapExactly(cfg, Run(cfg, steps).value, i);
  }

  /** The distinct chunks a message brings. */
  function ChunksIn(m: Bridge.ToPipeline): nat {
    match m case NewBlob(b) => |Collapse(b.leaves)| case GetBlob(_) => 0
  }

  /** In a timely run the distinct chunks that came in are the ones acknowledged plus the
      ones that remain. The remainder is zero exactly when every blob was archived, grows
      only when a blob comes in, and falls by exactly one with every acknowledgement. */
  lemma WorkIsConserved(cfg: Config, steps: seq<Step>)
    requires ValidConfig(cfg) && TimelyRun(cfg, steps)
    ensures var n := Run(cfg, steps).value;
            && n.log.admitted == n.log.acked + Remainder(n.pipe)
            && (Remainder(n.pipe) == 0 <==> n.pipe.current.None? && n.pipe.pending == [])
    ensures steps != [] ==>
              var n := Run(cfg, steps).value;
              var b := Run(cfg, steps[..|steps| - 1]).value;
              match steps[|steps| - 1]
              case ReceiveAdmission => Remainder(n.pipe) == Remainder(b.pipe) + ChunksIn(b.admission[0])
              case Update(i, _, _) =>
                Remainder(b.pipe) == Remainder(n.pipe) + if b.tasks[i].phase.status.Finalized? then 1 else 0
              case _ => Remainder(n.pipe) == Remainder(b.pipe)
  {
    AlwaysHealthy(cfg, steps);
    AlwaysSafe(cfg, steps);
    NothingRemainsExactly(cfg, Run(cfg, steps).value);
    if steps != [] {
      var last := |steps| - 1;
      AlwaysHealthy(cfg, steps[..last]);
      AlwaysSafe(cfg, steps[..last]);
      CountersMove(cfg, Run(cfg, steps[..last]).value, steps[last]);
    }
  }

  /** The counters behind the remainder move only where they should. */
  lemma CountersMove(cfg: Config, n: Node, step: Step)
    requires ValidConfig(cfg) && TasksOk(n) && Healthy(n) && WorkOk(n) && Enabled(cfg, n, step)
    ensures var m := Apply(cfg, n, step);
            match step
            case ReceiveAdmission =>
              m.log.acked == n.log.acked && m.log.admitted == n.log.admitted + ChunksIn(n.admission[0])
            case Update(i, _, _) =>
              m.log.admitted == n.log.admitted
              && m.log.acked == n.log.acked + if n.tasks[i].phase.status.Finalized? then 1 else 0
            case _ => m.log.acked == n.log.acked && m.log.admitted == n.log.admitted
  {
    if step.Update? {
      SettleTakesOne(n, step.i);
    }
  }

  // ---------------------------------------------------------------- end to end

  /** However uploads interleave, what is handed over under a ticket is the fixed-size split
      of that upload's own body, as long as declared, one permit a chunk. */
  lemma HandedOverIsSplit(cfg: Config, steps: seq<Step>, t: nat)
    requires ValidConfig(cfg) && Run(cfg, steps).Some? && t in Run(cfg, steps).value.log.sent
    ensures var n := Run(cfg, steps).value;
            && t < |n.requests|
            && DataOf(LeavesOf(cfg, n, t)) == Split(n.requests[t].body, cfg.size)
            && WellHashed(cfg.hasher, LeavesOf(cfg, n, t))
            && |n.requests[t].body| == n.requests[t].declared
            && |LeavesOf(cfg, n, t)| == Permits(cfg, n.requests[t].declared)
  {
    AlwaysSafe(cfg, steps);
    var n := Run(cfg, steps).value;
    assert RequestOk(cfg, n.requests[t]);
    FinishIsSplit(cfg.hasher, cfg.size, n.requests[t].chunker);
  }

  /** In every reachable state, the chunks a waiting or current blob stores by hash, looked up
      in leaf order, are the body of its upload, if and only if no two different chunks of
      that body share a hash. */
  lemma StoredChunksAreTheBody(cfg: Config, steps: seq<Step>, b: LocalBlob)
    requires ValidConfig(cfg) && Run(cfg, steps).Some?
    requires var p := Run(cfg, steps).value.pipe; p.current == Some(b) || b in p.pending
    ensures b.ticket < |Run(cfg, steps).value.requests|
    ensures forall k | 0 <= k < |b.leaves| :: b.leaves[k] in b.chunks
    ensures Concat(seq(|b.leaves|, k requires 0 <= k < |b.leaves| => b.chunks[b.leaves[k]].data))
              == Run(cfg, steps).value.requests[b.ticket].body
            <==> NoClash(LeavesOf(cfg, Run(cfg, steps).value, b.ticket))
  {
    AlwaysSafe(cfg, steps);
    var n := Run(cfg, steps).value;
    assert LocalOk(cfg, n, b);
    BlobIsItsBody(cfg, n, b);
  }

  lemma BlobIsItsBody(cfg: Config, n: Node, b: LocalBlob)
    requires ValidConfig(cfg) && RequestsOk(cfg, n) && LocalOk(cfg, n, b)
    ensures forall k | 0 <= k < |b.leaves| :: b.leaves[k] in b.chunks
    ensures Concat(seq(|b.leaves|, k requires 0 <= k < |b.leaves| => b.chunks[b.leaves[k]].data))
              == n.requests[b.ticket].body
            <==> NoClash(LeavesOf(cfg, n, b.ticket))
  {
    var q := n.requests[b.ticket];
    var leaves := LeavesOf(cfg, n, b.ticket);
    assert RequestOk(cfg, q);
    LeavesAreStored(leaves);
    RebuildExactly(cfg.hasher, cfg.size, q.chunker);
    assert seq(|b.leaves|, k requires 0 <= k < |b.leaves| => b.chunks[b.leaves[k]].data)
        == Lookup(HashesOf(leaves), Collapse(leaves));
  }

  /** Once a blob is reported as finalized, every one of its chunk hashes has had a push
      return Ok. If all peers run the receiver of the push protocol, each hash has a peer
      that checked some data against it. */
  lemma FinalizedWasPushed(cfg: Config, steps: seq<Step>, t: nat, k: nat)
    requires ValidConfig(cfg) && Run(cfg, steps).Some?
    requires var n := Run(cfg, steps).value;
             t in n.log.done + UpdateTickets(n.toBridge) && t < |n.requests| && k < |LeavesOf(cfg, n, t)|
    ensures var n := Run(cfg, steps).value;
            exists p :: (p, LeavesOf(cfg, n, t)[k].hash) in n.log.pushed
                        && (cfg.honest(p) ==>
                              exists d :: (p, LeavesOf(cfg, n, t)[k].hash, d) in n.log.verified
                                          && cfg.hasher(d) == LeavesOf(cfg, n, t)[k].hash)
  {
    AlwaysSafe(cfg, steps);
    var n := Run(cfg, steps).value;
    var h := LeavesOf(cfg, n, t)[k].hash;
    assert PushedSomewhere(n, h);
    var q :| q in n.log.pushed && q.1 == h;
    var p := q.0;
    assert (p, h) in n.log.pushed;
    if cfg.honest(p) {
      var d :| (p, h, d) in n.log.verified;
    }
  }

  /** Some honest peer checked `data` against `h`. */
  ghost predicate VerifiedSomewhere(n: Node, h: Hash, data: Bytes) {
    exists p :: (p, h, data) in n.log.verified
  }

  /** For every leaf, in order, a copy that some honest peer checked against it. */
  ghost predicate AllVerified(n: Node, leaves: seq<Leaf>, copies: seq<Bytes>) {
    |copies| == |leaves| && forall k | 0 <= k < |copies| :: VerifiedSomewhere(n, leaves[k].hash, copies[k])
  }

  /** A blob's chunks, and whatever was checked against one of its own leaves. */
  ghost function Involved(cfg: Config, n: Node, t: nat): set<Bytes>
    requires t < |n.requests|
  {
    (set q | q in n.log.verified && q.1 in HashesOf(LeavesOf(cfg, n, t)) :: q.2)
    + AllDataOf(LeavesOf(cfg, n, t))
  }

  /** Any copies that honest peers checked against the leaves of a handed-over blob spell,
      in leaf order, exactly the body that was uploaded, if the hash does not collide on this
      blob's chunks and the data checked against them. */
  lemma VerifiedCopiesRebuildTheBody(cfg: Config, steps: seq<Step>, t: nat, copies: seq<Bytes>)
    requires ValidConfig(cfg) && Run(cfg, steps).Some?
    requires var n := Run(cfg, steps).value;
             && t in n.log.sent && t < |n.requests|
             && AllVerified(n, LeavesOf(cfg, n, t), copies) && CollisionFree(cfg.hasher, Involved(cfg, n, t))
    ensures Concat(copies) == Run(cfg, steps).value.requests[t].body
    ensures |Concat(copies)| == Run(cfg, steps).value.requests[t].declared
  {
    AlwaysSafe(cfg, steps);
    HandedOverIsSplit(cfg, steps, t);
    var n := Run(cfg, steps).value;
    var leaves := LeavesOf(cfg, n, t);
    SplitShape(n.requests[t].body, cfg.size);
    forall k | 0 <= k < |copies| ensures copies[k] == DataOf(leaves)[k] {
      CopyIsChunk(cfg, n, t, k, copies[k]);
    }
    assert copies == DataOf(leaves);
  }

  lemma CopyIsChunk(cfg: Config, n: Node, t: nat, k: nat, copy: Bytes)
    requires PushesOk(cfg, n) && t < |n.requests| && k < |LeavesOf(cfg, n, t)|
    requires WellHashed(cfg.hasher, LeavesOf(cfg, n, t)) && CollisionFree(cfg.hasher, Involved(cfg, n, t))
    requires VerifiedSomewhere(n, LeavesOf(cfg, n, t)[k].hash, copy)
    ensures copy == LeavesOf(cfg, n, t)[k].data
  {
    var leaf := LeavesOf(cfg, n, t)[k];
    var p :| (p, leaf.hash, copy) in n.log.verified;
    assert HashesOf(LeavesOf(cfg, n, t))[k] == leaf.hash;
    assert cfg.hasher(copy) == leaf.hash == cfg.hasher(leaf.data);
    assert copy in Involved(cfg, n, t) && leaf.data in Involved(cfg, n, t);
  }

  /** Every leaf of the blob has had a push return Ok from some honest peer. */
  ghost predicate HonestlyPushed(cfg: Config, n: Node, t: nat)
    requires t < |n.requests|
  {
    forall k | 0 <= k < |LeavesOf(cfg, n, t)| ::
      exists p :: (p, LeavesOf(cfg, n, t)[k].hash) in n.log.pushed && cfg.honest(p)
  }

  lemma {:induction false} VerifiedCopies(cfg: Config, n: Node, t: nat, count: nat) returns (copies: seq<Bytes>)
    requires PushesOk(cfg, n) && t < |n.requests| && HonestlyPushed(cfg, n, t) && count <= |LeavesOf(cfg, n, t)|
    ensures AllVerified(n, LeavesOf(cfg, n, t)[..count], copies)
  {
    if count == 0 {
      copies := [];
    } else {
      copies := VerifiedCopies(cfg, n, t, count - 1);
      var h := LeavesOf(cfg, n, t)[count - 1].hash;
      var p :| (p, h) in n.log.pushed && cfg.honest(p);
      var copy :| (p, h, copy) in n.log.verified;
      copies := copies + [copy];
    }
  }

  /** One honest peer for each leaf is enough: a handed-over blob every leaf of which was
      pushed to one has, for every leaf, a copy that a peer verified, and those copies in
      leaf order are the uploaded body. */
  lemma HonestlyPushedMeansStored(cfg: Config, steps: seq<Step>, t: nat) returns (copies: seq<Bytes>)
    requires ValidConfig(cfg) && Run(cfg, steps).Some?
    requires var n := Run(cfg, steps).value;
             && t in n.log.sent && t < |n.requests| && HonestlyPushed(cfg, n, t)
             && CollisionFree(cfg.hasher, Involved(cfg, n, t))
    ensures var n := Run(cfg, steps).value;
            AllVerified(n, LeavesOf(cfg, n, t), copies) && Concat(copies) == n.requests[t].body
  {
    AlwaysPushesOk(cfg, steps);
    var n := Run(cfg, steps).value;
    var leaves := LeavesOf(cfg, n, t);
    copies := VerifiedCopies(cfg, n, t, |leaves|);
    assert leaves[..|leaves|] == leaves;
    VerifiedCopiesRebuildTheBody(cfg, steps, t, copies);
  }

  /** The whole story: if the peers whose pushes of this blob's chunks returned Ok are honest,
      and the hash does not collide on this blob's chunks and the data checked against them,
      then a blob reported as finalized has, for every leaf, a copy that some peer verified,
      and those copies in leaf order are the uploaded body. No other peer and no other blob
      matters. */
  lemma FinalizedMeansStored(cfg: Config, steps: seq<Step>, t: nat) returns (copies: seq<Bytes>)
    requires ValidConfig(cfg) && Run(cfg, steps).Some?
    requires var n := Run(cfg, steps).value;
             && t in n.log.done + UpdateTickets(n.toBridge) && t < |n.requests|
             && (forall q | q in n.log.pushed && q.1 in HashesOf(LeavesOf(cfg, n, t)) :: cfg.honest(q.0))
             && CollisionFree(cfg.hasher, Involved(cfg, n, t))
    ensures var n := Run(cfg, steps).value;
            AllVerified(n, LeavesOf(cfg, n, t), copies) && Concat(copies) == n.requests[t].body
  {
    ReportedWasSent(cfg, steps, t);
    var n := Run(cfg, steps).value;
    forall k | 0 <= k < |LeavesOf(cfg, n, t)|
      ensures exists p :: (p, LeavesOf(cfg, n, t)[k].hash) in n.log.pushed && cfg.honest(p)
    {
      var p := HonestPusher(cfg, steps, t, k);
    }
    assert HonestlyPushed(cfg, n, t);
    copies := HonestlyPushedMeansStored(cfg, steps, t);
  }

  lemma HonestPusher(cfg: Config, steps: seq<Step>, t: nat, k: nat) returns (p: PeerId)
    requires ValidConfig(cfg) && Run(cfg, steps).Some?
    requires var n := Run(cfg, steps).value;
             && t in n.log.done + UpdateTickets(n.toBridge) && t < |n.requests| && k < |LeavesOf(cfg, n, t)|
             && (forall q | q in n.log.pushed && q.1 in HashesOf(LeavesOf(cfg, n, t)) :: cfg.honest(q.0))
    ensures var n := Run(cfg, steps).value;
            (p, LeavesOf(cfg, n, t)[k].hash) in n.log.pushed && cfg.honest(p)
  {
    FinalizedWasPushed(cfg, steps, t, k);
    var n := Run(cfg, steps).value;
    var h := LeavesOf(cfg, n, t)[k].hash;
    assert HashesOf(LeavesOf(cfg, n, t))[k] == h;
    p :| (p, h) in n.log.pushed
         && (cfg.honest(p) ==> exists d :: (p, h, d) in n.log.verified && cfg.hasher(d) == h);
    assert (p, h).1 in HashesOf(LeavesOf(cfg, n, t));
  }

  lemma ReportedWasSent(cfg: Config, steps: seq<Step>, t: nat)
    requires ValidConfig(cfg) && Run(cfg, steps).Some?
    requires t in Run(cfg, steps).value.log.done + UpdateTickets(Run(cfg, steps).value.toBridge)
    ensures t in Run(cfg, steps).value.log.sent
  {
    AlwaysSafe(cfg, steps);
    var n := Run(cfg, steps).value;
    FinalizedInOrder(n);
    var reported := n.log.done + UpdateTickets(n.toBridge);
    var k :| 0 <= k < |reported| && reported[k] == t;
    assert n.log.sent[k] == t;
  }

  /** Every upload carries a genuine chunk, so that an honest receiver accepts it unless the
      link is cut. */
  lemma UploadsAreAcceptable(cfg: Config, steps: seq<Step>, i: nat, s: Session.State<Transfer.PushResult>)
    requires ValidConfig(cfg) && cfg.window > 0 && Run(cfg, steps).Some?
    requires i < |Run(cfg, steps).value.tasks|
    requires var t := Run(cfg, steps).value.tasks[i];
             Frames.Framable(t.data) ==>
               && Session.Reachable(Transfer.Push(cfg.hasher, cfg.size, cfg.window, t.hash, t.data), s)
               && Session.Over(s) && !s.cut
    ensures var t := Run(cfg, steps).value.tasks[i];
            cfg.hasher(t.data) == t.hash && |t.data| <= cfg.size && Frames.Framable(t.data)
    ensures s.outcome == Session.Finished(Transfer.Accepted)
  {
    AlwaysSafe(cfg, steps);
    var t := Run(cfg, steps).value.tasks[i];
    assert Frames.Framable(t.data);
    Transfer.UncutPush(cfg.hasher, cfg.size, cfg.window, t.hash, t.data, s);
  }

  // ---------------------------------------------------------------- resources and order

  /** In every reachable state the permits add up to 1536 and the slots to 20. */
  lemma ResourcesAreConserved(cfg: Config, steps: seq<Step>)
    requires ValidConfig(cfg) && Run(cfg, steps).Some?
    ensures var n := Run(cfg, steps).value;
            && n.budget + SumOf(n.requests, HeldBy) + SumOf(n.admission, CarriedBy) + PipePermits(n.pipe) == 1536
            && n.freeSlots + SumOf(n.tasks, SlotOf) == 20
            && HoldsOnlyStreaming(n)
  {
    AlwaysSafe(cfg, steps);
    RequestsHoldOnlyStreaming(cfg, Run(cfg, steps).value);
  }

  /** In every reachable state no holder of permits holds more bytes than they pay for. */
  lemma MemoryStaysWithinBudget(cfg: Config, steps: seq<Step>)
    requires ValidConfig(cfg) && Run(cfg, steps).Some?
    ensures var n := Run(cfg, steps).value;
            && (forall r | 0 <= r < |n.requests| && n.requests[r].phase.Streaming? ::
                  SumOf(n.requests[r].chunker.chunks, LeafBytes) + |n.requests[r].chunker.buf|
                  <= n.requests[r].held * cfg.size)
            && (forall k | 0 <= k < |n.admission| && n.admission[k].NewBlob? ::
                  SumOf(n.admission[k].blob.leaves, LeafBytes) <= n.admission[k].blob.allowance * cfg.size)
            && (forall k | 0 <= k < |n.pipe.pending| ::
                  StoredBytes(n.pipe.pending[k].chunks) <= n.pipe.pending[k].allowance * cfg.size)
            && (n.pipe.current.Some? ==>
                  StoredBytes(n.pipe.current.value.chunks) <= n.pipe.current.value.allowance * cfg.size)
  {
    AlwaysSafe(cfg, steps);
    var n := Run(cfg, steps).value;
    forall r | 0 <= r < |n.requests| && n.requests[r].phase.Streaming?
      ensures SumOf(n.requests[r].chunker.chunks, LeafBytes) + |n.requests[r].chunker.buf|
              <= n.requests[r].held * cfg.size
    {
      StreamingWithinPermits(cfg, n, r);
    }
    forall k | 0 <= k < |n.admission| && n.admission[k].NewBlob?
      ensures SumOf(n.admission[k].blob.leaves, LeafBytes) <= n.admission[k].blob.allowance * cfg.size
    {
      QueuedWithinPermits(cfg, n, k);
    }
    forall k | 0 <= k < |n.pipe.pending|
      ensures StoredBytes(n.pipe.pending[k].chunks) <= n.pipe.pending[k].allowance * cfg.size
    {
      StoredWithinPermits(cfg, n, n.pipe.pending[k]);
    }
    if n.pipe.current.Some? {
      StoredWithinPermits(cfg, n, n.pipe.current.value);
    }
  }

  /** In every reachable state the copies that running uploads hold fit twenty chunks, be they
      of a blob whose permits are still held or not. */
  lemma UploadsStayWithinSlots(cfg: Config, steps: seq<Step>)
    requires ValidConfig(cfg) && Run(cfg, steps).Some?
    ensures SumOf(Run(cfg, steps).value.tasks, UploadBytes) <= 20 * cfg.size
  {
    AlwaysSafe(cfg, steps);
    UploadsWithinSlots(cfg, Run(cfg, steps).value);
  }

  /** In a timely run they are paid for: every outstanding attempt's bytes are a chunk that the
      current blob stores, another one for each attempt, so no copy outlives the permits. */
  lemma UploadsArePaidFor(cfg: Config, steps: seq<Step>, i: nat)
    requires ValidConfig(cfg) && TimelyRun(cfg, steps)
    requires i < |Run(cfg, steps).value.tasks| && Outstanding(Run(cfg, steps).value.tasks[i])
    ensures var n := Run(cfg, steps).value;
            && n.pipe.current.Some? && n.tasks[i].hash in n.pipe.current.value.chunks
            && n.pipe.current.value.chunks[n.tasks[i].hash].data == n.tasks[i].data
            && (forall j | 0 <= j < |n.tasks| && Outstanding(n.tasks[j]) && j != i ::
                  n.tasks[j].hash != n.tasks[i].hash)
            && StoredBytes(n.pipe.current.value.chunks) <= n.pipe.current.value.allowance * cfg.size
  {
    AlwaysHealthy(cfg, steps);
    AlwaysTasksOk(cfg, steps);
    MemoryStaysWithinBudget(cfg, steps);
    var n := Run(cfg, steps).value;
    OutstandingApart(n, i, i);
    forall j | 0 <= j < |n.tasks| && Outstanding(n.tasks[j]) && j != i ensures n.tasks[j].hash != n.tasks[i].hash {
      OutstandingApart(n, j, i);
    }
  }

  /** In every reachable state the blobs handed over are, in order and each once: those
      recorded as finalized, those reported, the current one, those waiting, and those in
      the channel. Nothing waits while there is no current blob. */
  lemma FirstInFirstOut(cfg: Config, steps: seq<Step>)
    requires ValidConfig(cfg) && Run(cfg, steps).Some?
    ensures var n := Run(cfg, steps).value;
            && n.log.sent == n.log.done + UpdateTickets(n.toBridge) + PipeTickets(n.pipe) + MessageTickets(n.admission)
            && Distinct(n.log.sent)
            && (forall t :: t in n.log.sent <==> 0 <= t < |n.requests| && HandedOver(n.requests[t]))
            && n.log.done <= n.log.sent
            && (n.pipe.current.None? ==> n.pipe.pending == [])
  {
    AlwaysSafe(cfg, steps);
    FinalizedInOrder(Run(cfg, steps).value);
  }

  // ---------------------------------------------------------------- what clients see

  /** In every reachable state, a blob that was handed over has an entry under its validated
      id, which says "finalized", once, exactly if its own update was handled and the id it
      was uploaded under prints back to itself; no two such blobs share an id. */
  lemma StatusIsTruthful(cfg: Config, steps: seq<Step>, t: nat)
    requires ValidConfig(cfg) && R.StableRun(cfg, steps) && Run(cfg, steps).Some?
    requires t in Run(cfg, steps).value.log.sent
    ensures var n := Run(cfg, steps).value;
            && t < |n.requests| && cfg.canon(n.requests[t].rawId) == Some(n.requests[t].key)
            && n.requests[t].key in n.statusMap
            && n.statusMap[n.requests[t].key] ==
               (if t in n.log.done && n.requests[t].rawId == n.requests[t].key
                then [Bridge.Pending, Bridge.Finalized] else [Bridge.Pending])
            && (forall t' | t' in n.log.sent && t' != t :: t' < |n.requests| && n.requests[t'].key != n.requests[t].key)
  {
    AlwaysBooksOk(cfg, steps);
    R.FinalizedExactly(cfg, Run(cfg, steps).value, t);
  }

  /** In every reachable state, a blob that was handed over still has the entry for its
      validated id, and shares that id with no other upload that has not given up. */
  lemma IdsAreNeverReused(cfg: Config, steps: seq<Step>, t: nat, r: nat)
    requires ValidConfig(cfg) && Run(cfg, steps).Some? && t in Run(cfg, steps).value.log.sent
    requires r < |Run(cfg, steps).value.requests| && R.OwnsEntry(Run(cfg, steps).value.requests[r]) && r != t
    ensures var n := Run(cfg, steps).value;
            t < |n.requests| && n.requests[t].key in n.statusMap && n.requests[r].key != n.requests[t].key
  {
    AlwaysSafe(cfg, steps);
  }

  /** In every reachable state, the next Finalized update is solicited exactly when its id
      is canonical, and then its entry is still pending. */
  lemma UpdatesAreSolicitedExactly(cfg: Config, steps: seq<Step>)
    requires ValidConfig(cfg) && R.StableRun(cfg, steps) && Run(cfg, steps).Some?
    requires Run(cfg, steps).value.toBridge != []
    ensures var n := Run(cfg, steps).value;
            var id := n.toBridge[0].id;
            && (id in n.statusMap <==> cfg.canon(id) == Some(id))
            && (id in n.statusMap ==> n.statusMap[id] == [Bridge.Pending])
  {
    AlwaysBooksOk(cfg, steps);
    R.SolicitedExactly(cfg, Run(cfg, steps).value);
  }

  /** In every reachable state, an upload with an uncommitted reservation has sent nothing,
      has its entry to itself, and takes only that entry with it when it gives up: every
      other owner's entry stays as it is. Outside the streaming phase it holds no permits. */
  lemma FailedUploadsLeaveNoTrace(cfg: Config, steps: seq<Step>, r: nat)
    requires ValidConfig(cfg) && Run(cfg, steps).Some?
    requires var n := Run(cfg, steps).value;
             r < |n.requests| && R.OwnsEntry(n.requests[r]) && !HandedOver(n.requests[r])
    ensures var n := Run(cfg, steps).value;
            && r !in n.log.sent && (!n.requests[r].phase.Streaming? ==> n.requests[r].held == 0)
            && n.requests[r].key in n.statusMap && n.requests[r].key !in DoDropReservation(n, r).statusMap
            && (forall r' | 0 <= r' < |n.requests| && r' != r && R.OwnsEntry(n.requests[r']) ::
                  var k := n.requests[r'].key;
                  && k != n.requests[r].key && k in DoDropReservation(n, r).statusMap
                  && DoDropReservation(n, r).statusMap[k] == n.statusMap[k])
  {
    AlwaysSafe(cfg, steps);
    ResourcesAreConserved(cfg, steps);
    R.RollbackSparesOthers(Run(cfg, steps).value, r);
  }

  /** If the ids that occur in the run print stably, that entry says only "pending". */
  lemma ReservationsArePending(cfg: Config, steps: seq<Step>, r: nat)
    requires ValidConfig(cfg) && R.StableRun(cfg, steps) && Run(cfg, steps).Some?
    requires var n := Run(cfg, steps).value;
             r < |n.requests| && R.OwnsEntry(n.requests[r]) && !HandedOver(n.requests[r])
    ensures var n := Run(cfg, steps).value;
            n.requests[r].key in n.statusMap && n.statusMap[n.requests[r].key] == [Bridge.Pending]
  {
    AlwaysBooksOk(cfg, steps);
    R.RollbackIsClean(cfg, Run(cfg, steps).value, r);
  }

  /** In every reachable state, the peers a round of assignment may use are exactly those
      whose latest permit, of all ever issued, has not run out. */
  lemma EligibleByLatestPermit(cfg: Config, steps: seq<Step>)
    requires ValidConfig(cfg) && Run(cfg, steps).Some?
    ensures var n := Run(cfg, steps).value;
            EligiblePeers(n.pipe.permits, n.now) == set p | p in n.log.issued && n.log.issued[p] > n.now
  {
    AlwaysSafe(cfg, steps);
    EligibleExactly(Run(cfg, steps).value);
  }

  lemma EligibleAfter(cfg: Config, steps: seq<Step>, p: PeerId)
    requires ValidConfig(cfg) && Run(cfg, steps).Some?
    ensures var n := Run(cfg, steps).value;
            p in EligiblePeers(n.pipe.permits, n.now) <==> p in n.log.issued && n.log.issued[p] > n.now
  {
    EligibleByLatestPermit(cfg, steps);
  }

  lemma PermitIsRecorded(cfg: Config, steps: seq<Step>, step: Step)
    requires ValidConfig(cfg) && step.Permit? && Run(cfg, steps + [step]).Some?
    ensures Run(cfg, steps).Some?
    ensures var n, m := Run(cfg, steps).value, Run(cfg, steps + [step]).value;
            && step.peer in m.log.issued && m.log.issued[step.peer] == Expiry(n.now, step.validFor, cfg.maxInstant)
            && m.now == n.now
  {
    RunSnoc(cfg, steps, step);
    IssuedNow(cfg, Run(cfg, steps).value, step);
  }

  /** What was issued holds exactly as long as it was issued for. */
  lemma IssuedHolds(cfg: Config, steps: seq<Step>, more: seq<Step>, p: PeerId, issuedAt: Instant, validFor: nat)
    requires ValidConfig(cfg) && Run(cfg, steps).Some? && Run(cfg, steps + more).Some?
    requires forall k | 0 <= k < |more| && more[k].Permit? :: more[k].peer != p
    requires var n := Run(cfg, steps).value;
             p in n.log.issued && n.log.issued[p] == Expiry(issuedAt, validFor, cfg.maxInstant) && issuedAt <= n.now
    ensures var m := Run(cfg, steps + more).value;
            p in EligiblePeers(m.pipe.permits, m.now) <==>
              issuedAt + validFor * MILLIS <= cfg.maxInstant && m.now < issuedAt + validFor * MILLIS
  {
    IssuedStaysRun(cfg, steps, more, p);
    EligibleAfter(cfg, steps + more, p);
  }

  /** How long a permit lasts, whatever steps lie between: as long as the peer gets no newer
      one, it may be used exactly before its term ends, and never if that end is beyond the
      range of the clock. */
  lemma PermitLastsExactly(cfg: Config, steps: seq<Step>, p: PeerId, validFor: nat,
                           peers: seq<PeerId>, spawned: seq<Upload>, more: seq<Step>)
    requires ValidConfig(cfg) && Run(cfg, steps + [Permit(p, validFor, peers, spawned)] + more).Some?
    requires forall k | 0 <= k < |more| && more[k].Permit? :: more[k].peer != p
    ensures Run(cfg, steps).Some?
    ensures var issuedAt := Run(cfg, steps).value.now;
            var m := Run(cfg, steps + [Permit(p, validFor, peers, spawned)] + more).value;
            p in EligiblePeers(m.pipe.permits, m.now) <==>
              issuedAt + validFor * MILLIS <= cfg.maxInstant && m.now < issuedAt + validFor * MILLIS
  {
    var step := Permit(p, validFor, peers, spawned);
    RunPrefix(cfg, steps + [step], more);
    PermitIsRecorded(cfg, steps, step);
    IssuedHolds(cfg, steps + [step], more, p, Run(cfg, steps).value.now, validFor);
  }
}
