/** Two concrete runs that show where the guarantees end: an upload under an id that does
    not print back to itself is stored but never shown as finalized, and an update handled
    more than 31 seconds after its assignment lets a Finalized chunk fall back. */
module Witness {
  import opened Prelude
  import opened Chunking
  import opened Coordinator
  import opened Node
  import Bridge
  import Session

  /** One-byte chunks; "A" and "a" both validate and print as "a"; no peer is trusted. */
  ghost function Setup(hasher: Hasher): Config {
    Config(hasher, 1, id => if id == "A" || id == "a" then Some("a") else None, p => false, 1_000_000, 1)
  }

  ghost predicate At(cfg: Config, steps: seq<Step>, n: Node) {
    ValidConfig(cfg) && Run(cfg, steps) == Some(n)
  }

  lemma Extend(cfg: Config, steps: seq<Step>, n: Node, step: Step)
    requires At(cfg, steps, n) && Enabled(cfg, n, step)
    ensures At(cfg, steps + [step], Apply(cfg, n, step))
  {
    assert (steps + [step])[..|steps|] == steps;
  }

  const BODY: Bytes := [1, 2]

  function Leaves(hasher: Hasher): seq<Leaf> {
    [Leaf(hasher([1]), [1]), Leaf(hasher([2]), [2])]
  }

  lemma BodyFed(hasher: Hasher)
    ensures Feed(hasher, 1, EMPTY, BODY) == Chunker([], Leaves(hasher))
  {
    var one := Absorb(hasher, 1, EMPTY, BODY[..1]);
    assert EMPTY.buf + BODY[..1] == [1];
    assert one == Chunker([], [Leaf(hasher([1]), [1])]);
    assert BODY[1..] == [2];
    var two := Absorb(hasher, 1, one, [2][..1]);
    assert one.buf + [2][..1] == [2];
    assert two == Chunker([], Leaves(hasher));
    assert [2][1..] == [];
    assert Feed(hasher, 1, one, [2]) == Feed(hasher, 1, two, []);
  }

  lemma BodyCollapsed(hasher: Hasher)
    requires hasher([1]) != hasher([2])
    ensures Collapse(Leaves(hasher)) == map[hasher([1]) := [1], hasher([2]) := [2]]
  {
    var leaves := Leaves(hasher);
    assert leaves[..1] == [leaves[0]];
    assert [leaves[0]][..0] == [];
    assert Collapse([leaves[0]]) == Collapse([])[hasher([1]) := [1]];
  }

  function Chunks(hasher: Hasher, first: ChunkUploadStatus, second: ChunkUploadStatus, at: Instant, at': Instant)
    : map<Hash, Chunk>
  {
    map[hasher([1]) := Chunk([1], first, at), hasher([2]) := Chunk([2], second, at')]
  }

  function Blob(hasher: Hasher, chunks: map<Hash, Chunk>): LocalBlob {
    LocalBlob("A", [hasher([1]), hasher([2])], chunks, 2, 0, 0)
  }

  function Pipe(hasher: Hasher, chunks: map<Hash, Chunk>): PipelineState {
    PipelineState([], Some(Blob(hasher, chunks)), map[], map[9 := 100_000])
  }

  function Uploads(hasher: Hasher): seq<Upload> {
    [Upload(hasher([1]), [1], 9), Upload(hasher([2]), [2], 9)]
  }

  /** The blob is in, peer 9 has a permit, and both chunks are on their way. */
  function Uploading(hasher: Hasher): Node {
    Node(0, [Request("A", "a", 2, Committed, 0, Chunker([], Leaves(hasher)), BODY)],
         map["a" := [Bridge.Pending]], Bridge.TOTAL_CHUNK_BUDGET - 2, [], [],
         Pipe(hasher, Chunks(hasher, Inflight(9), Inflight(9), 0, 0)), UPLOAD_SLOTS - 2,
         [Task(hasher([1]), [1], 9, 0, Running), Task(hasher([2]), [2], 9, 0, Running)], [],
         History([0], [], {}, {}, map[9 := 100_000], 2, 0))
  }

  lemma Streamed(hasher: Hasher) returns (steps: seq<Step>, n: Node)
    ensures At(Setup(hasher), steps, n)
    ensures n == Start().(requests := [Request("A", "a", 2, Streaming, 2, Chunker([], Leaves(hasher)), BODY)],
                          statusMap := map["a" := [Bridge.Pending]],
                          budget := Bridge.TOTAL_CHUNK_BUDGET - 2)
  {
    var cfg := Setup(hasher);
    DivCeilUnique(2, 1, 2);
    steps, n := [], Start();
    Extend(cfg, steps, n, Arrive("A", 2));
    steps, n := steps + [Arrive("A", 2)], Apply(cfg, n, Arrive("A", 2));
    assert n.requests == [Request("A", "a", 2, Reserved, 0, EMPTY, [])];
    Extend(cfg, steps, n, Acquire(0));
    steps, n := steps + [Acquire(0)], Apply(cfg, n, Acquire(0));
    BodyFed(hasher);
    assert [] + BODY == BODY;
    Extend(cfg, steps, n, Frame(0, BODY));
    steps, n := steps + [Frame(0, BODY)], Apply(cfg, n, Frame(0, BODY));
  }

  lemma HandedOver(hasher: Hasher) returns (steps: seq<Step>, n: Node)
    ensures At(Setup(hasher), steps, n)
    ensures n == Start().(requests := Uploading(hasher).requests,
                          statusMap := map["a" := [Bridge.Pending]],
                          budget := Bridge.TOTAL_CHUNK_BUDGET - 2,
                          admission := [Bridge.NewBlob(AdmittedBlob("A", Leaves(hasher), 2, 0))],
                          log := History([0], [], {}, {}, map[], 0, 0))
  {
    var cfg := Setup(hasher);
    steps, n := Streamed(hasher);
    Extend(cfg, steps, n, Send(0));
    steps, n := steps + [Send(0)], Apply(cfg, n, Send(0));
    Extend(cfg, steps, n, Commit(0));
    steps, n := steps + [Commit(0)], Apply(cfg, n, Commit(0));
  }

  lemma BlobBegins(hasher: Hasher)
    requires hasher([1]) != hasher([2])
    ensures OnNewBlob(PipelineState([], None, map[], map[]), AdmittedBlob("A", Leaves(hasher), 2, 0), 0)
         == Pipe(hasher, Chunks(hasher, Pending, Pending, 0, 0)).(permits := map[])
    ensures |Collapse(Leaves(hasher))| == 2
  {
    BodyCollapsed(hasher);
    var b := AdmittedBlob("A", Leaves(hasher), 2, 0);
    assert FreshChunks(b.leaves, 0) == Chunks(hasher, Pending, Pending, 0, 0);
    assert ToLocal(b, 0) == Blob(hasher, Chunks(hasher, Pending, Pending, 0, 0));
  }

  lemma Received(hasher: Hasher) returns (steps: seq<Step>, n: Node)
    requires hasher([1]) != hasher([2])
    ensures At(Setup(hasher), steps, n)
    ensures n == Uploading(hasher).(
                   pipe := Pipe(hasher, Chunks(hasher, Pending, Pending, 0, 0)).(permits := map[]),
                   freeSlots := UPLOAD_SLOTS, tasks := [],
                   log := History([0], [], {}, {}, map[], 2, 0))
  {
    var cfg := Setup(hasher);
    steps, n := HandedOver(hasher);
    BlobBegins(hasher);
    Extend(cfg, steps, n, ReceiveAdmission);
    steps, n := steps + [ReceiveAdmission], Apply(cfg, n, ReceiveAdmission);
  }

  /** A round may send both chunks to peer 9 when both are due. */
  lemma BothDue(hasher: Hasher, chunks: map<Hash, Chunk>, now: Instant, slots: nat)
    requires hasher([1]) != hasher([2]) && slots >= 2 && now < 100_000
    requires chunks.Keys == {hasher([1]), hasher([2])}
    requires chunks[hasher([1])].data == [1] && chunks[hasher([2])].data == [2]
    requires forall h | h in chunks :: IsEligible(chunks[h], now)
    ensures Assigns(Pipe(hasher, chunks), now, slots, [9], Uploads(hasher))
    ensures AfterAssign(Pipe(hasher, chunks), now, Uploads(hasher))
         == Pipe(hasher, Chunks(hasher, Inflight(9), Inflight(9), now, now))
  {
    assert EligibleChunks(chunks, now) == {hasher([1]), hasher([2])};
    assert EligiblePeers(map[9 := 100_000], now) == {9};
    RetargetEffect(chunks, now, Uploads(hasher));
    var after := Retarget(chunks, now, Uploads(hasher));
    assert after[Uploads(hasher)[0].hash] == Chunk([1], Inflight(9), now);
    assert after[Uploads(hasher)[1].hash] == Chunk([2], Inflight(9), now);
    assert after == Chunks(hasher, Inflight(9), Inflight(9), now, now);
  }

  lemma ReachesUploading(hasher: Hasher) returns (steps: seq<Step>)
    requires hasher([1]) != hasher([2])
    ensures At(Setup(hasher), steps, Uploading(hasher))
  {
    var cfg := Setup(hasher);
    var n;
    steps, n := Received(hasher);
    BothDue(hasher, Chunks(hasher, Pending, Pending, 0, 0), 0, UPLOAD_SLOTS);
    var step := Permit(9, 100, [9], Uploads(hasher));
    assert OnPermit(n.pipe, 9, Expiry(0, 100, 1_000_000)) == Pipe(hasher, Chunks(hasher, Pending, Pending, 0, 0));
    Extend(cfg, steps, n, step);
    assert n.tasks + NewTasks(Uploads(hasher), 0) == Uploading(hasher).tasks;
    assert Apply(cfg, n, step) == Uploading(hasher);
    steps := steps + [step];
  }

  /** A round that follows an update while nothing is due. */
  lemma NothingDue(hasher: Hasher, chunks: map<Hash, Chunk>, now: Instant, slots: nat)
    requires now < 100_000 && forall h | h in chunks :: !IsEligible(chunks[h], now)
    ensures Assigns(Pipe(hasher, chunks), now, slots, [9], [])
  {
    assert EligibleChunks(chunks, now) == {};
    assert EligiblePeers(map[9 := 100_000], now) == {9};
  }

  lemma FirstSettles(hasher: Hasher, n: Node, at: Instant)
    requires hasher([1]) != hasher([2])
    requires n.pipe == Pipe(hasher, Chunks(hasher, Inflight(9), Inflight(9), at, at))
    requires n.tasks != [] && n.tasks[0].hash == hasher([1]) && n.tasks[0].phase == Reported(Finalized(9))
    ensures EffectOf(n, 0) ==
            UpdateEffect(Pipe(hasher, Chunks(hasher, Finalized(9), Inflight(9), n.now, at)), None, true)
  {
    var chunks := Chunks(hasher, Finalized(9), Inflight(9), n.now, at);
    assert n.pipe.current.value.chunks[hasher([1]) := Chunk([1], Finalized(9), n.now)] == chunks;
    assert !AllFinalized(chunks) by {
      assert hasher([2]) in chunks;
    }
  }

  /** The first chunk's success is handled while both chunks are in flight. */
  lemma FirstArrives(hasher: Hasher, steps: seq<Step>, n: Node, at: Instant) returns (steps': seq<Step>, m: Node)
    requires hasher([1]) != hasher([2]) && At(Setup(hasher), steps, n)
    requires n.pipe == Pipe(hasher, Chunks(hasher, Inflight(9), Inflight(9), at, at))
    requires n.tasks != [] && n.tasks[0].hash == hasher([1]) && n.tasks[0].phase == Reported(Finalized(9))
    requires n.inbox != [] && n.inbox[0] == 0 && at <= n.now < 31_000 + at && n.now < 100_000
    ensures At(Setup(hasher), steps', m)
    ensures m == n.(pipe := Pipe(hasher, Chunks(hasher, Finalized(9), Inflight(9), n.now, at)),
                    tasks := n.tasks[0 := n.tasks[0].(phase := Gone)], inbox := n.inbox[1..],
                    log := n.log.(acked := n.log.acked + 1))
  {
    FirstSettles(hasher, n, at);
    var chunks := Chunks(hasher, Finalized(9), Inflight(9), n.now, at);
    NothingDue(hasher, chunks, n.now, n.freeSlots);
    var step := Update(0, [9], []);
    Extend(Setup(hasher), steps, n, step);
    steps', m := steps + [step], Apply(Setup(hasher), n, step);
    assert Settle(n, 0).tasks + NewTasks([], n.now) == Settle(n, 0).tasks;
  }

  const DONE := PushOk(Session.Start())

  /** An upload ends, and its update is sent at once. */
  lemma TaskDone(hasher: Hasher, steps: seq<Step>, n: Node, i: nat, outcome: TaskOutcome)
    returns (steps': seq<Step>, m: Node)
    requires At(Setup(hasher), steps, n) && i < |n.tasks| && n.tasks[i].phase.Running? && |n.tasks[i].data| == 1
    requires outcome == DONE || outcome == PushErr
    requires i !in n.inbox
    ensures At(Setup(hasher), steps', m)
    ensures var status := if outcome == DONE then Finalized(n.tasks[i].to) else Pending;
            m == n.(tasks := n.tasks[i := n.tasks[i].(phase := Reported(status))],
                    freeSlots := n.freeSlots + 1, inbox := n.inbox + [i], log := m.log)
    ensures m.log == n.log.(pushed := m.log.pushed, verified := m.log.verified)
  {
    var cfg := Setup(hasher);
    Extend(cfg, steps, n, TaskEnds(i, outcome));
    steps', m := steps + [TaskEnds(i, outcome)], Apply(cfg, n, TaskEnds(i, outcome));
    Extend(cfg, steps', m, Post(i));
    steps', m := steps' + [Post(i)], Apply(cfg, m, Post(i));
  }

  /** The second success completes the blob, which is reported under the id it came with. */
  lemma SecondArrives(hasher: Hasher, steps: seq<Step>, n: Node) returns (steps': seq<Step>, m: Node)
    requires hasher([1]) != hasher([2]) && At(Setup(hasher), steps, n)
    requires n.pipe == Pipe(hasher, Chunks(hasher, Finalized(9), Inflight(9), 0, 0)) && n.now == 0 && n.toBridge == []
    requires |n.tasks| == 2 && n.tasks[1].hash == hasher([2]) && n.tasks[1].phase == Reported(Finalized(9))
    requires n.inbox == [1]
    ensures At(Setup(hasher), steps', m)
    ensures m.toBridge == [StatusUpdate("A", 0)]
    ensures m.statusMap == n.statusMap && m.requests == n.requests && m.log.done == n.log.done
  {
    var all := Chunks(hasher, Finalized(9), Finalized(9), 0, 0);
    assert n.pipe.current.value.chunks[hasher([2]) := Chunk([2], Finalized(9), 0)] == all;
    assert EffectOf(n, 1).stored == Some(Blob(hasher, all));
    assert EffectOf(n, 1).pipe.current == None;
    var step := Update(1, [], []);
    Extend(Setup(hasher), steps, n, step);
    steps', m := steps + [step], Apply(Setup(hasher), n, step);
  }

  /** The blob uploaded as "A" was validated as "a". Both its chunks are finalized and the
      bridge has handled its update, and yet "a" still says only "pending". */
  lemma AliasStaysPending(hasher: Hasher) returns (steps: seq<Step>)
    requires hasher([1]) != hasher([2])
    ensures ValidConfig(Setup(hasher)) && Run(Setup(hasher), steps).Some?
    ensures var n := Run(Setup(hasher), steps).value;
            && n.log.done == [0] && |n.requests| == 1 && n.requests[0].rawId == "A"
            && n.statusMap == map["a" := [Bridge.Pending]]
  {
    var cfg := Setup(hasher);
    var n := Uploading(hasher);
    steps := ReachesUploading(hasher);
    steps, n := TaskDone(hasher, steps, n, 0, DONE);
    steps, n := FirstArrives(hasher, steps, n, 0);
    steps, n := TaskDone(hasher, steps, n, 1, DONE);
    steps, n := SecondArrives(hasher, steps, n);
    assert "A"[0] != "a"[0];
    Extend(cfg, steps, n, ReceiveStatus);
    steps, n := steps + [ReceiveStatus], Apply(cfg, n, ReceiveStatus);
  }

  /** 31 seconds on, both chunks are assigned once more. */
  lemma AssignedAgain(hasher: Hasher, steps: seq<Step>, n: Node) returns (steps': seq<Step>, m: Node)
    requires hasher([1]) != hasher([2]) && At(Setup(hasher), steps, n)
    requires n.pipe == Pipe(hasher, Chunks(hasher, Inflight(9), Inflight(9), 0, 0))
    requires n.now == 0 && n.freeSlots >= 2
    ensures At(Setup(hasher), steps', m)
    ensures m == n.(now := 31_000,
                    pipe := Pipe(hasher, Chunks(hasher, Inflight(9), Inflight(9), 31_000, 31_000)),
                    tasks := n.tasks + NewTasks(Uploads(hasher), 31_000), freeSlots := n.freeSlots - 2)
  {
    var cfg := Setup(hasher);
    Extend(cfg, steps, n, Tick(31_000));
    steps', m := steps + [Tick(31_000)], Apply(cfg, n, Tick(31_000));
    var again := AssignTimer([9], Uploads(hasher));
    BothDue(hasher, Chunks(hasher, Inflight(9), Inflight(9), 0, 0), 31_000, m.freeSlots);
    Extend(cfg, steps', m, again);
    steps', m := steps' + [again], Apply(cfg, m, again);
  }

  /** A failed attempt puts its chunk back to pending, whatever the chunk was. */
  lemma FailureHandled(hasher: Hasher, steps: seq<Step>, n: Node, i: nat)
    requires At(Setup(hasher), steps, n) && n.pipe.current.Some?
    requires IsNext(n, i) && n.tasks[i].phase == Reported(Pending) && n.tasks[i].hash in n.pipe.current.value.chunks
    ensures Run(Setup(hasher), steps + [Update(i, [], [])]).Some?
    ensures var p := Run(Setup(hasher), steps + [Update(i, [], [])]).value.pipe;
            p.current.Some? && n.tasks[i].hash in p.current.value.chunks
            && p.current.value.chunks[n.tasks[i].hash].status == Pending
  {
    Extend(Setup(hasher), steps, n, Update(i, [], []));
  }

  /** The first chunk's attempt returned Ok, but its update waits until the chunk has been
      assigned once more, 31 seconds on. Handled then, it finalizes the chunk; the failure
      of the second attempt takes that back. */
  lemma LateUpdateUndoesFinalized(hasher: Hasher) returns (steps: seq<Step>, last: Step)
    requires hasher([1]) != hasher([2])
    ensures ValidConfig(Setup(hasher)) && Run(Setup(hasher), steps).Some? && Run(Setup(hasher), steps + [last]).Some?
    ensures var p := Run(Setup(hasher), steps).value.pipe;
            p.current.Some? && hasher([1]) in p.current.value.chunks
            && p.current.value.chunks[hasher([1])].status == Finalized(9)
    ensures var p := Run(Setup(hasher), steps + [last]).value.pipe;
            p.current.Some? && hasher([1]) in p.current.value.chunks
            && p.current.value.chunks[hasher([1])].status == Pending
  {
    var n := Uploading(hasher);
    steps := ReachesUploading(hasher);
    steps, n := TaskDone(hasher, steps, n, 0, DONE);
    steps, n := AssignedAgain(hasher, steps, n);
    assert n.tasks[2] == Task(hasher([1]), [1], 9, 31_000, Running);
    steps, n := TaskDone(hasher, steps, n, 2, PushErr);
    steps, n := FirstArrives(hasher, steps, n, 31_000);
    last := Update(2, [], []);
    FailureHandled(hasher, steps, n, 2);
  }
}
