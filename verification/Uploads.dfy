/** Uploads from the client's side, over whole runs: a request is what the client sent, it may
    start exactly if nothing is wrong with it, it can give up at any time, and from every
    reachable state it can succeed. */
module Uploads {
  import opened Prelude
  import opened Chunking
  import opened Coordinator
  import opened Node
  import opened Custody
  import opened Budget
  import opened Order
  import opened Theorems
  import opened Progress
  import Bridge
  import R = Reservations

  // ---------------------------------------------------------------- what was sent

  /** The uploads that arrived, with the ids and lengths they declared. */
  function Arrivals(steps: seq<Step>): seq<(string, nat)> {
    if steps == [] then [] else
    var last := |steps| - 1;
    Arrivals(steps[..last]) + match steps[last] case Arrive(id, declared) => [(id, declared)] case _ => []
  }

  /** The frames of the body of upload `r`. */
  function FramesOf(steps: seq<Step>, r: nat): seq<Bytes> {
    if steps == [] then [] else
    var last := |steps| - 1;
    FramesOf(steps[..last], r) + match steps[last] case Frame(r', data) => (if r' == r then [data] else []) case _ => []
  }

  /** What a step does to the record of a request. */
  lemma RecordStep(cfg: Config, n: Node, step: Step)
    requires ValidConfig(cfg) && Enabled(cfg, n, step)
    ensures var m := Apply(cfg, n, step);
            && |m.requests| == |n.requests| + (if step.Arrive? then 1 else 0)
            && (step.Arrive? ==> var q := m.requests[|n.requests|];
                                 q.rawId == step.id && q.declared == step.declared && q.body == [])
            && (step.Frame? ==> step.r < |n.requests|)
            && forall r | 0 <= r < |n.requests| ::
                 && m.requests[r].rawId == n.requests[r].rawId && m.requests[r].declared == n.requests[r].declared
                 && m.requests[r].body ==
                    n.requests[r].body + if step.Frame? && step.r == r then step.data else []
  {
  }

  /** In every run, the requests are the uploads that arrived, in order, each with the id and
      the length it declared and the body its frames spell so far, however the frames of
      different uploads interleave. */
  lemma {:induction false} RequestsAreWhatArrived(cfg: Config, steps: seq<Step>, r: nat)
    requires ValidConfig(cfg) && Run(cfg, steps).Some?
    ensures var n := Run(cfg, steps).value;
            && |n.requests| == |Arrivals(steps)|
            && (r < |n.requests| ==>
                  && (n.requests[r].rawId, n.requests[r].declared) == Arrivals(steps)[r]
                  && n.requests[r].body == Concat(FramesOf(steps, r)))
            && (r >= |n.requests| ==> FramesOf(steps, r) == [])
  {
    if steps != [] {
      var last := |steps| - 1;
      var b := Run(cfg, steps[..last]).value;
      RequestsAreWhatArrived(cfg, steps[..last], r);
      RecordStep(cfg, b, steps[last]);
      if steps[last].Frame? && steps[last].r == r {
        ConcatSnoc(FramesOf(steps[..last], r), steps[last].data);
      } else {
        assert FramesOf(steps, r) == FramesOf(steps[..last], r);
      }
    }
  }

  // ---------------------------------------------------------------- starting and giving up

  /** In every reachable state an upload may start exactly if its length is from 1 byte to 1 GiB
      and takes at most 1536 chunks, its id is accepted, and nobody has that id. */
  lemma ArrivesExactly(cfg: Config, steps: seq<Step>, id: string, declared: nat)
    requires ValidConfig(cfg) && Run(cfg, steps).Some?
    ensures var n := Run(cfg, steps).value;
            Enabled(cfg, n, Arrive(id, declared)) <==>
              && 0 < declared <= 1_073_741_824 && DivCeil(declared, cfg.size) <= 1536
              && cfg.canon(id).Some? && cfg.canon(id).value !in n.statusMap
  {
  }

  /** An upload at `r` has failed, and nothing of it is left. */
  function GivenUp(n: Node, r: nat): Node
    requires r < |n.requests|
  {
    n.(requests := n.requests[r := n.requests[r].(phase := Failed, held := 0)],
       statusMap := n.statusMap - {n.requests[r].key},
       budget := n.budget + n.requests[r].held)
  }

  lemma DropUnwound(cfg: Config, n: Node, r: nat) returns (step: Step)
    requires ValidConfig(cfg) && r < |n.requests| && n.requests[r].held == 0
    requires n.requests[r].phase.Reserved? || n.requests[r].phase.Unwinding?
    ensures Enabled(cfg, n, step) && Apply(cfg, n, step) == GivenUp(n, r)
  {
    step := DropReservation(r);
  }

  lemma Unwind(cfg: Config, n: Node, r: nat) returns (step: Step)
    requires ValidConfig(cfg) && r < |n.requests| && n.requests[r].phase.Streaming?
    ensures Enabled(cfg, n, step)
    ensures Apply(cfg, n, step) ==
            n.(requests := n.requests[r := n.requests[r].(phase := Unwinding, held := 0)],
               budget := n.budget + n.requests[r].held)
  {
    step := ReturnPermits(r);
  }

  lemma GiveUp(cfg: Config, n: Node, r: nat) returns (more: seq<Step>)
    requires ValidConfig(cfg) && RequestsOk(cfg, n)
    requires r < |n.requests| && R.OwnsEntry(n.requests[r]) && !HandedOver(n.requests[r])
    ensures Leads(cfg, n, more, GivenUp(n, r))
  {
    assert RequestOk(cfg, n.requests[r]);
    LeadsNowhere(cfg, GivenUp(n, r));
    if n.requests[r].phase.Streaming? {
      var unwind := Unwind(cfg, n, r);
      var k := Apply(cfg, n, unwind);
      var drop := DropUnwound(cfg, k, r);
      assert GivenUp(k, r) == GivenUp(n, r);
      LeadsFrom(cfg, k, drop, [], GivenUp(n, r));
      LeadsFrom(cfg, n, unwind, [drop] + [], GivenUp(n, r));
      more := [unwind] + ([drop] + []);
    } else {
      var drop := DropUnwound(cfg, n, r);
      LeadsFrom(cfg, n, drop, [], GivenUp(n, r));
      more := [drop] + [];
    }
  }

  /** From every reachable state, an upload that has not been handed over can give up: its entry
      goes, its permits come back, and nothing else changes. */
  lemma EveryUploadCanGiveUp(cfg: Config, steps: seq<Step>, r: nat) returns (more: seq<Step>)
    requires ValidConfig(cfg) && Run(cfg, steps).Some?
    requires var n := Run(cfg, steps).value;
             r < |n.requests| && R.OwnsEntry(n.requests[r]) && !HandedOver(n.requests[r])
    ensures Run(cfg, steps + more).Some?
    ensures var n, m := Run(cfg, steps).value, Run(cfg, steps + more).value;
            m == n.(requests := n.requests[r := n.requests[r].(phase := Failed, held := 0)],
                    statusMap := n.statusMap - {n.requests[r].key},
                    budget := n.budget + n.requests[r].held)
  {
    AlwaysRequestsOk(cfg, steps);
    var n := Run(cfg, steps).value;
    more := GiveUp(cfg, n, r);
    assert Run(cfg, steps + more) == Some(GivenUp(n, r));
  }

  lemma AlwaysRequestsOk(cfg: Config, steps: seq<Step>)
    requires ValidConfig(cfg) && Run(cfg, steps).Some?
    ensures RequestsOk(cfg, Run(cfg, steps).value)
  {
    AlwaysSafe(cfg, steps);
  }

  // ---------------------------------------------------------------- making room

  function StreamOf(q: Request): nat {
    if q.phase.Streaming? then 1 else 0
  }

  predicate NoneStreams(n: Node) {
    forall r | 0 <= r < |n.requests| :: !n.requests[r].phase.Streaming?
  }

  /** The other uploads in progress give their permits back. */
  lemma {:induction false} ReleaseAll(cfg: Config, n: Node) returns (more: seq<Step>, m: Node)
    requires ValidConfig(cfg) && Reachable(cfg, n)
    ensures Leads(cfg, n, more, m) && Reachable(cfg, m) && NoneStreams(m)
    ensures m == n.(requests := m.requests, budget := m.budget) && |m.requests| == |n.requests|
    decreases SumOf(n.requests, StreamOf)
  {
    if NoneStreams(n) {
      LeadsNowhere(cfg, n);
      more, m := [], n;
    } else {
      var r: nat :| r < |n.requests| && n.requests[r].phase.Streaming?;
      var step := ReturnPermits(r);
      SumOfUpdate(n.requests, r, n.requests[r].(phase := Unwinding, held := 0), StreamOf);
      ReachableStep(cfg, n, step);
      more, m := ReleaseAll(cfg, Apply(cfg, n, step));
      LeadsFrom(cfg, n, step, more, m);
      more := [step] + more;
    }
  }

  lemma SentAllDone(n: Node)
    requires TrailOk(n) && (n.log.sent != [] ==> n.log.sent[|n.log.sent| - 1] in n.log.done)
    ensures n.log.done == n.log.sent
  {
    FinalizedInOrder(n);
    if n.log.sent != [] {
      var last := |n.log.sent| - 1;
      var k :| 0 <= k < |n.log.done| && n.log.done[k] == n.log.sent[last];
      assert n.log.sent[k] == n.log.sent[last];
      assert k == last;
    }
  }

  /** Every blob that was handed over is stored. */
  lemma StoreAll(cfg: Config, n: Node, peer: PeerId) returns (more: seq<Step>, m: Node)
    requires ValidConfig(cfg) && cfg.window > 0 && Reachable(cfg, n)
    requires n.now + 32_000 * Ahead(n) <= cfg.maxInstant
    ensures Leads(cfg, n, more, m) && Reachable(cfg, m) && m.log.done == m.log.sent == n.log.sent
    ensures m.requests == n.requests && m.statusMap.Keys == n.statusMap.Keys
    ensures m.now <= n.now + 32_000 * Ahead(n)
  {
    ReachableTrail(cfg, n);
    TrailBounds(n);
    if n.log.sent == [] {
      LeadsNowhere(cfg, n);
      more, m := [], n;
    } else {
      more, m := StoreAny(cfg, n, n.log.sent[|n.log.sent| - 1], peer);
    }
    ReachableTrail(cfg, m);
    SentAllDone(m);
  }

  lemma DoneLeavesNothing(n: Node)
    requires TrailOk(n) && n.log.done == n.log.sent
    ensures n.toBridge == [] && n.pipe.current.None? && n.pipe.pending == [] && MessageTickets(n.admission) == []
  {
    assert |n.log.sent| == |n.log.done| + |UpdateTickets(n.toBridge)| + |PipeTickets(n.pipe)|
                           + |MessageTickets(n.admission)|;
  }

  lemma FirstIsInquiry(q: seq<Bridge.ToPipeline>)
    requires q != [] && MessageTickets(q) == []
    ensures q[0].GetBlob?
  {
  }

  /** What is left in the channel then are requests for missing blobs. */
  lemma {:induction false} EmptyChannel(cfg: Config, n: Node) returns (more: seq<Step>, m: Node)
    requires ValidConfig(cfg) && Reachable(cfg, n) && n.log.done == n.log.sent
    ensures Leads(cfg, n, more, m) && Reachable(cfg, m) && m == n.(admission := [])
    decreases |n.admission|
  {
    if n.admission == [] {
      LeadsNowhere(cfg, n);
      more, m := [], n;
    } else {
      ReachableTrail(cfg, n);
      DoneLeavesNothing(n);
      FirstIsInquiry(n.admission);
      ReachableStep(cfg, n, ReceiveAdmission);
      more, m := EmptyChannel(cfg, Apply(cfg, n, ReceiveAdmission));
      LeadsFrom(cfg, n, ReceiveAdmission, more, m);
      more := [ReceiveAdmission] + more;
    }
  }

  lemma {:induction false} NothingHeld(requests: seq<Request>)
    requires forall r | 0 <= r < |requests| :: requests[r].held == 0
    ensures SumOf(requests, HeldBy) == 0
  {
    if requests != [] {
      NothingHeld(requests[1..]);
    }
  }

  /** Then all permits are free. */
  lemma AllPermitsFree(cfg: Config, n: Node)
    requires ValidConfig(cfg) && Reachable(cfg, n) && NoneStreams(n) && n.log.done == n.log.sent && n.admission == []
    ensures n.budget == 1536
  {
    var steps :| Run(cfg, steps) == Some(n);
    ResourcesAreConserved(cfg, steps);
    ReachableTrail(cfg, n);
    DoneLeavesNothing(n);
    NothingHeld(n.requests);
  }

  lemma MakeRoom(cfg: Config, n: Node, peer: PeerId) returns (more: seq<Step>, m: Node)
    requires ValidConfig(cfg) && cfg.window > 0 && Reachable(cfg, n)
    requires n.now + 32_000 * Ahead(n) <= cfg.maxInstant
    ensures Leads(cfg, n, more, m) && Reachable(cfg, m) && m.budget == 1536 && m.admission == []
    ensures m.log.done == m.log.sent && |m.requests| == |n.requests| && m.statusMap.Keys == n.statusMap.Keys
    ensures m.now <= n.now + 32_000 * Ahead(n)
  {
    var release, a := ReleaseAll(cfg, n);
    var store, b := StoreAll(cfg, a, peer);
    var empty;
    empty, m := EmptyChannel(cfg, b);
    AllPermitsFree(cfg, m);
    LeadsOn(cfg, a, store, b, empty, m);
    LeadsOn(cfg, n, release, a, store + empty, m);
    more := release + (store + empty);
  }

  // ---------------------------------------------------------------- an upload goes through

  lemma BufferHasRoom(cfg: Config, n: Node, r: nat)
    requires ValidConfig(cfg) && Reachable(cfg, n) && r < |n.requests|
    ensures |n.requests[r].chunker.buf| < cfg.size
  {
    var steps :| Run(cfg, steps) == Some(n);
    AlwaysSafe(cfg, steps);
    assert RequestOk(cfg, n.requests[r]);
  }

  /** The body arrives, in any frames. */
  lemma {:induction false} FeedAll(cfg: Config, n: Node, r: nat, frames: seq<Bytes>)
    returns (more: seq<Step>, m: Node)
    requires ValidConfig(cfg) && Reachable(cfg, n) && r < |n.requests| && n.requests[r].phase.Streaming?
    requires |n.requests[r].body| + |Concat(frames)| <= n.requests[r].declared
    ensures Leads(cfg, n, more, m) && Reachable(cfg, m) && m == n.(requests := m.requests)
    ensures |m.requests| == |n.requests| && m.requests[r].body == n.requests[r].body + Concat(frames)
    ensures m.requests[r] == n.requests[r].(chunker := m.requests[r].chunker, body := m.requests[r].body)
    decreases |frames|
  {
    if frames == [] {
      LeadsNowhere(cfg, n);
      more, m := [], n;
    } else {
      BufferHasRoom(cfg, n, r);
      var step := Frame(r, frames[0]);
      ReachableStep(cfg, n, step);
      more, m := FeedAll(cfg, Apply(cfg, n, step), r, frames[1..]);
      LeadsFrom(cfg, n, step, more, m);
      more := [step] + more;
    }
  }

  /** The reservation is made and the permits are taken. */
  lemma BeginUpload(cfg: Config, n: Node, id: string, declared: nat) returns (more: seq<Step>, m: Node)
    requires ValidConfig(cfg) && Reachable(cfg, n)
    requires 0 < declared <= 1_073_741_824 && DivCeil(declared, cfg.size) <= 1536
    requires cfg.canon(id).Some? && cfg.canon(id).value !in n.statusMap && DivCeil(declared, cfg.size) <= n.budget
    ensures Leads(cfg, n, more, m) && Reachable(cfg, m)
    ensures m.now == n.now && m.log == n.log && m.admission == n.admission && |m.requests| == |n.requests| + 1
    ensures var q := m.requests[|n.requests|];
            q.rawId == id && q.declared == declared && q.body == [] && q.phase.Streaming?
  {
    var r := |n.requests|;
    ReachableStep(cfg, n, Arrive(id, declared));
    var a := Apply(cfg, n, Arrive(id, declared));
    ReachableStep(cfg, a, Acquire(r));
    m := Apply(cfg, a, Acquire(r));
    LeadsNowhere(cfg, m);
    LeadsFrom(cfg, a, Acquire(r), [], m);
    LeadsFrom(cfg, n, Arrive(id, declared), [Acquire(r)] + [], m);
    more := [Arrive(id, declared)] + ([Acquire(r)] + []);
  }

  /** The blob is handed over and the reservation committed. */
  lemma HandOver(cfg: Config, n: Node, r: nat) returns (more: seq<Step>, m: Node)
    requires ValidConfig(cfg) && Reachable(cfg, n) && r < |n.requests| && n.requests[r].phase.Streaming?
    requires |n.requests[r].body| == n.requests[r].declared && |n.admission| < 16
    ensures Leads(cfg, n, more, m) && Reachable(cfg, m) && m.now == n.now && m.log == n.log.(sent := n.log.sent + [r])
    ensures m.requests == n.requests[r := n.requests[r].(phase := Committed, held := 0)]
  {
    ReachableStep(cfg, n, Send(r));
    var a := Apply(cfg, n, Send(r));
    ReachableStep(cfg, a, Commit(r));
    m := Apply(cfg, a, Commit(r));
    LeadsNowhere(cfg, m);
    LeadsFrom(cfg, a, Commit(r), [], m);
    LeadsFrom(cfg, n, Send(r), [Commit(r)] + [], m);
    more := [Send(r)] + ([Commit(r)] + []);
  }

  lemma PassThrough(cfg: Config, n: Node, id: string, frames: seq<Bytes>) returns (more: seq<Step>, m: Node)
    requires ValidConfig(cfg) && Reachable(cfg, n) && |n.admission| < 16
    requires 0 < |Concat(frames)| <= 1_073_741_824 && DivCeil(|Concat(frames)|, cfg.size) <= Min(1536, n.budget)
    requires cfg.canon(id).Some? && cfg.canon(id).value !in n.statusMap
    ensures Leads(cfg, n, more, m) && Reachable(cfg, m) && m.now == n.now
    ensures m.log == n.log.(sent := n.log.sent + [|n.requests|]) && |m.requests| == |n.requests| + 1
    ensures m.requests[|n.requests|].rawId == id && m.requests[|n.requests|].body == Concat(frames)
  {
    var r := |n.requests|;
    var begin, a := BeginUpload(cfg, n, id, |Concat(frames)|);
    var feed, b := FeedAll(cfg, a, r, frames);
    var hand;
    hand, m := HandOver(cfg, b, r);
    LeadsOn(cfg, a, feed, b, hand, m);
    LeadsOn(cfg, n, begin, a, feed + hand, m);
    more := begin + (feed + hand);
  }

  lemma UploadAndStore(cfg: Config, n: Node, id: string, frames: seq<Bytes>, peer: PeerId)
    returns (more: seq<Step>, m: Node)
    requires ValidConfig(cfg) && cfg.window > 0 && Reachable(cfg, n)
    requires 0 < |Concat(frames)| <= 1_073_741_824 && DivCeil(|Concat(frames)|, cfg.size) <= 1536
    requires cfg.canon(id).Some? && cfg.canon(id).value !in n.statusMap
    requires n.now + 32_000 * (Ahead(n) + 1) <= cfg.maxInstant
    ensures Leads(cfg, n, more, m) && |n.requests| in m.log.done && |n.requests| < |m.requests|
    ensures m.requests[|n.requests|].rawId == id && m.requests[|n.requests|].body == Concat(frames)
  {
    var room, a := MakeRoom(cfg, n, peer);
    var pass, b := PassThrough(cfg, a, id, frames);
    var store;
    store, m := StoreAny(cfg, b, |n.requests|, peer);
    LeadsOn(cfg, a, pass, b, store, m);
    LeadsOn(cfg, n, room, a, pass + store, m);
    more := room + (pass + store);
  }

  /** From every reachable state, any body of an acceptable length, in any frames, under any
      accepted id that nobody has, can be uploaded, stored, and recorded as finalized, given 32
      seconds of clock for each blob not recorded yet and for itself. */
  lemma EveryUploadCanSucceed(cfg: Config, steps: seq<Step>, id: string, frames: seq<Bytes>, peer: PeerId)
    returns (more: seq<Step>)
    requires ValidConfig(cfg) && cfg.window > 0 && Run(cfg, steps).Some?
    requires 0 < |Concat(frames)| <= 1_073_741_824 && DivCeil(|Concat(frames)|, cfg.size) <= 1536
    requires var n := Run(cfg, steps).value;
             && cfg.canon(id).Some? && cfg.canon(id).value !in n.statusMap
             && n.now + 32_000 * (|n.log.sent| - |n.log.done| + 1) <= cfg.maxInstant
    ensures Run(cfg, steps + more).Some?
    ensures var r, m := |Run(cfg, steps).value.requests|, Run(cfg, steps + more).value;
            && r in m.log.done && r < |m.requests|
            && m.requests[r].rawId == id && m.requests[r].body == Concat(frames)
  {
    var m;
    more, m := UploadAndStore(cfg, Run(cfg, steps).value, id, frames, peer);
    assert Run(cfg, steps + more) == Some(m);
  }
}
