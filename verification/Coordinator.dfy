/** The upload coordinator of bin/client/src/coordinator.rs: what each event does to the
    pipeline, the pipeline itself, and the contract of chunk assignment. */
module Coordinator {
  import opened Prelude
  import opened Chunking

  const MILLIS := 1000
  const CHUNK_UPLOAD_WINDOW := 30
  const STORAGE_PROVIDER_DECAY := 5 * 60
  const UPLOAD_SLOTS := 20

  datatype ChunkUploadStatus = Pending | Inflight(to: PeerId) | Finalized(owner: PeerId)

  datatype Chunk = Chunk(data: Bytes, status: ChunkUploadStatus, at: Instant)

  /** A blob as the bridge hands it over. The leaf sequence stands for its Merkle tree.
      `ticket` is the number of the request that uploaded it: a name for the proofs, which
      no operation looks at. */
  datatype AdmittedBlob = AdmittedBlob(id: string, leaves: seq<Leaf>, allowance: nat, ticket: nat)

  datatype LocalBlob = LocalBlob(
    id: string,
    leaves: seq<Hash>,
    chunks: map<Hash, Chunk>,
    allowance: nat,
    createdAt: Instant,
    ticket: nat)

  datatype PipelineState = PipelineState(
    pending: seq<LocalBlob>,
    current: Option<LocalBlob>,
    hints: map<PeerId, Instant>,
    permits: map<PeerId, Instant>)

  /** An upload task handed to the runtime. */
  datatype Upload = Upload(hash: Hash, data: Bytes, to: PeerId)

  // ---------------------------------------------------------------- what the events do

  /** Time since `at`, never negative. */
  function Elapsed(now: Instant, at: Instant): nat {
    if now >= at then now - at else 0
  }

  function Seconds(millis: nat): nat {
    millis / MILLIS
  }

  function FreshChunks(leaves: seq<Leaf>, now: Instant): map<Hash, Chunk> {
    var stored := Collapse(leaves);
    map h | h in stored :: Chunk(stored[h], Pending, now)
  }

  function ToLocal(b: AdmittedBlob, now: Instant): LocalBlob {
    LocalBlob(b.id, HashesOf(b.leaves), FreshChunks(b.leaves, now), b.allowance, now, b.ticket)
  }

  function AddLocalBlob(p: PipelineState, b: AdmittedBlob, now: Instant): PipelineState {
    p.(pending := p.pending + [ToLocal(b, now)])
  }

  function Unexpired(permits: map<PeerId, Instant>, now: Instant): map<PeerId, Instant> {
    map peer | peer in permits && permits[peer] > now :: permits[peer]
  }

  function RequestStoragePermits(p: PipelineState, now: Instant): PipelineState {
    if p.hints == map[] then p else p.(permits := Unexpired(p.permits, now))
  }

  function BeginNextBlob(p: PipelineState, now: Instant): PipelineState {
    if p.current.Some? || p.pending == [] then p
    else RequestStoragePermits(p.(current := Some(p.pending[0]), pending := p.pending[1..]), now)
  }

  function OnNewBlob(p: PipelineState, b: AdmittedBlob, now: Instant): PipelineState {
    BeginNextBlob(AddLocalBlob(p, b, now), now)
  }

  function OnStaleTimer(p: PipelineState, now: Instant): PipelineState {
    var q := p.(hints := map peer | peer in p.hints && Seconds(Elapsed(now, p.hints[peer])) < STORAGE_PROVIDER_DECAY
                              :: p.hints[peer]);
    if q.current.Some? then RequestStoragePermits(q, now) else q
  }

  function OnWouldStore(p: PipelineState, peer: PeerId, now: Instant): PipelineState {
    p.(hints := p.hints[peer := now])
  }

  /** When a permit runs out; one that would run past the clock's range ends at once. */
  function Expiry(now: Instant, validFor: nat, maxInstant: Instant): Instant {
    if now + validFor * MILLIS <= maxInstant then now + validFor * MILLIS else now
  }

  function OnPermit(p: PipelineState, peer: PeerId, expiry: Instant): PipelineState {
    p.(permits := p.permits[peer := expiry])
  }

  predicate IsEligible(c: Chunk, now: Instant) {
    match c.status
    case Pending => true
    case Inflight(_) => Seconds(Elapsed(now, c.at)) > CHUNK_UPLOAD_WINDOW
    case Finalized(_) => false
  }

  function EligibleChunks(chunks: map<Hash, Chunk>, now: Instant): set<Hash> {
    set h | h in chunks && IsEligible(chunks[h], now)
  }

  function EligiblePeers(permits: map<PeerId, Instant>, now: Instant): set<PeerId> {
    set peer | peer in permits && permits[peer] > now
  }

  function Retarget(chunks: map<Hash, Chunk>, now: Instant, spawned: seq<Upload>): map<Hash, Chunk> {
    if spawned == [] then chunks else
    var n := |spawned| - 1;
    var others := Retarget(chunks, now, spawned[..n]);
    var u := spawned[n];
    if u.hash in others then others[u.hash := Chunk(others[u.hash].data, Inflight(u.to), now)] else others
  }

  /** Which uploads one round of assignment may start: as many as there are slots or
      eligible chunks, each for another eligible chunk, dealt to the peers in turn. The
      iteration orders of the two hash maps decide which; any order is allowed. */
  ghost predicate Schedules(chunks: map<Hash, Chunk>, now: Instant, slots: nat,
                            peers: seq<PeerId>, spawned: seq<Upload>)
  {
    && peers != []
    && |spawned| == Min(slots, |EligibleChunks(chunks, now)|)
    && (forall k | 0 <= k < |spawned| ::
          && spawned[k].hash in EligibleChunks(chunks, now)
          && spawned[k].data == chunks[spawned[k].hash].data
          && spawned[k].to == peers[k % |peers|])
    && (forall i, k | 0 <= i < k < |spawned| :: spawned[i].hash != spawned[k].hash)
  }

  ghost predicate Assigns(p: PipelineState, now: Instant, slots: nat, peers: seq<PeerId>, spawned: seq<Upload>) {
    if slots == 0 || p.current.None? || EligiblePeers(p.permits, now) == {} then spawned == []
    else Enumerates(peers, EligiblePeers(p.permits, now))
         && Schedules(p.current.value.chunks, now, slots, peers, spawned)
  }

  function AfterAssign(p: PipelineState, now: Instant, spawned: seq<Upload>): PipelineState {
    if p.current.None? then p
    else p.(current := Some(p.current.value.(chunks := Retarget(p.current.value.chunks, now, spawned))))
  }

  predicate AllFinalized(chunks: map<Hash, Chunk>) {
    forall h | h in chunks :: chunks[h].status.Finalized?
  }

  /** The effect of one status update, up to the assignment round that may follow it:
      the pipeline, the blob that thereby is stored globally if any, and whether a round
      follows. */
  datatype UpdateEffect = UpdateEffect(pipe: PipelineState, stored: Option<LocalBlob>, reassign: bool)

  function OnUpdate(p: PipelineState, hash: Hash, status: ChunkUploadStatus, now: Instant): UpdateEffect {
    if p.current.None? || hash !in p.current.value.chunks then UpdateEffect(p, None, false) else
    var chunks := p.current.value.chunks;
    var blob := p.current.value.(chunks := chunks[hash := Chunk(chunks[hash].data, status, now)]);
    if !status.Finalized? then UpdateEffect(p.(current := Some(blob)), None, false)
    else if AllFinalized(blob.chunks) then
      UpdateEffect(BeginNextBlob(p.(current := None), now), Some(blob), true)
    else UpdateEffect(p.(current := Some(blob)), None, true)
  }

  function PendingTickets(q: seq<LocalBlob>): seq<nat> {
    seq(|q|, k requires 0 <= k < |q| => q[k].ticket)
  }

  function CurrentTicket(c: Option<LocalBlob>): seq<nat> {
    match c case None => [] case Some(b) => [b.ticket]
  }

  /** In the pipeline: the current blob, then those waiting. */
  function PipeTickets(p: PipelineState): seq<nat> {
    CurrentTicket(p.current) + PendingTickets(p.pending)
  }

  /** How an upload can end, and what it then reports; one that timed out says nothing. */
  datatype UploadEnd = Succeeded | PushFailed | TimedOut

  function ReportOf(to: PeerId, end: UploadEnd): Option<ChunkUploadStatus> {
    match end
    case Succeeded => Some(Finalized(to))
    case PushFailed => Some(Pending)
    case TimedOut => None
  }

  // ---------------------------------------------------------------- facts about new blobs

  lemma BeginNextKeepsTickets(p: PipelineState, now: Instant)
    ensures PipeTickets(BeginNextBlob(p, now)) == PipeTickets(p)
  {
    if p.current.None? && p.pending != [] {
      assert PendingTickets(p.pending) == [p.pending[0].ticket] + PendingTickets(p.pending[1..]);
    }
  }

  lemma NewBlobAddsTicket(p: PipelineState, b: AdmittedBlob, now: Instant)
    ensures PipeTickets(OnNewBlob(p, b, now)) == PipeTickets(p) + [b.ticket]
  {
    BeginNextKeepsTickets(AddLocalBlob(p, b, now), now);
    assert PendingTickets(p.pending + [ToLocal(b, now)]) == PendingTickets(p.pending) + [b.ticket];
  }

  /** A new blob has one pending chunk for each distinct hash, with some leaf's data. */
  lemma FreshChunksAre(leaves: seq<Leaf>, now: Instant)
    ensures forall h :: h in FreshChunks(leaves, now) <==> exists k :: 0 <= k < |leaves| && leaves[k].hash == h
    ensures forall h | h in FreshChunks(leaves, now) ::
              FreshChunks(leaves, now)[h] == Chunk(FreshChunks(leaves, now)[h].data, Pending, now)
              && Leaf(h, FreshChunks(leaves, now)[h].data) in leaves
  {
    forall h ensures h in Collapse(leaves) <==> exists k :: 0 <= k < |leaves| && leaves[k].hash == h {
      if h in Collapse(leaves) {
        var k := CollapseOrigin(leaves, h);
      } else if k :| 0 <= k < |leaves| && leaves[k].hash == h {
        var j := CollapseEntry(leaves, k);
      }
    }
    forall h | h in FreshChunks(leaves, now) ensures Leaf(h, FreshChunks(leaves, now)[h].data) in leaves {
      var k := CollapseOrigin(leaves, h);
    }
  }

  /** Exactly the permits that have run out are gone. */
  ghost predicate OnlyExpiredGone(before: map<PeerId, Instant>, after: map<PeerId, Instant>, now: Instant) {
    && (forall p :: p in after <==> p in before && before[p] > now)
    && (forall p | p in after :: after[p] == before[p])
  }

  /** With the chunk `hash` set to `status`. */
  function Marked(b: LocalBlob, hash: Hash, status: ChunkUploadStatus, now: Instant): LocalBlob
    requires hash in b.chunks
  {
    b.(chunks := b.chunks[hash := Chunk(b.chunks[hash].data, status, now)])
  }

  /** A success completes a blob exactly if all its other chunks are there. */
  lemma OthersDecide(b: LocalBlob, hash: Hash, status: ChunkUploadStatus, now: Instant)
    requires hash in b.chunks && status.Finalized?
    ensures AllFinalized(Marked(b, hash, status, now).chunks)
            <==> forall h | h in b.chunks && h != hash :: b.chunks[h].status.Finalized?
  {
    var after := Marked(b, hash, status, now).chunks;
    forall h | h in b.chunks && h != hash ensures after[h] == b.chunks[h] {
    }
  }

  /** The current blob and those that wait, in order. */
  function AllBlobs(p: PipelineState): seq<LocalBlob> {
    (if p.current.Some? then [p.current.value] else []) + p.pending
  }

  // ---------------------------------------------------------------- facts about assignment

  lemma {:induction false} RetargetSpares(chunks: map<Hash, Chunk>, now: Instant, spawned: seq<Upload>, h: Hash)
    requires forall k | 0 <= k < |spawned| :: spawned[k].hash != h
    ensures h in Retarget(chunks, now, spawned) <==> h in chunks
    ensures h in chunks ==> Retarget(chunks, now, spawned)[h] == chunks[h]
  {
    if spawned != [] {
      RetargetSpares(chunks, now, spawned[..|spawned| - 1], h);
    }
  }

  lemma {:induction false} RetargetHits(chunks: map<Hash, Chunk>, now: Instant, spawned: seq<Upload>, k: nat)
    requires k < |spawned| && spawned[k].hash in chunks
    requires forall i, j | 0 <= i < j < |spawned| :: spawned[i].hash != spawned[j].hash
    ensures spawned[k].hash in Retarget(chunks, now, spawned)
    ensures Retarget(chunks, now, spawned)[spawned[k].hash]
         == Chunk(chunks[spawned[k].hash].data, Inflight(spawned[k].to), now)
  {
    var n := |spawned| - 1;
    if k < n {
      RetargetHits(chunks, now, spawned[..n], k);
    } else {
      RetargetSpares(chunks, now, spawned[..n], spawned[n].hash);
    }
  }

  /** Exactly the chunks an upload was started for are retargeted, each to its peer. */
  lemma {:induction false} RetargetEffect(chunks: map<Hash, Chunk>, now: Instant, spawned: seq<Upload>)
    requires forall k | 0 <= k < |spawned| :: spawned[k].hash in chunks
    requires forall i, k | 0 <= i < k < |spawned| :: spawned[i].hash != spawned[k].hash
    ensures Retarget(chunks, now, spawned).Keys == chunks.Keys
    ensures forall h | h in chunks && (forall k | 0 <= k < |spawned| :: spawned[k].hash != h) ::
              Retarget(chunks, now, spawned)[h] == chunks[h]
    ensures forall k | 0 <= k < |spawned| ::
              Retarget(chunks, now, spawned)[spawned[k].hash]
              == Chunk(chunks[spawned[k].hash].data, Inflight(spawned[k].to), now)
  {
    var after := Retarget(chunks, now, spawned);
    forall k | 0 <= k < |spawned|
      ensures spawned[k].hash in after
      ensures after[spawned[k].hash] == Chunk(chunks[spawned[k].hash].data, Inflight(spawned[k].to), now)
    {
      RetargetHits(chunks, now, spawned, k);
    }
    forall h | forall k | 0 <= k < |spawned| :: spawned[k].hash != h
      ensures h in after <==> h in chunks
      ensures h in chunks ==> after[h] == chunks[h]
    {
      RetargetSpares(chunks, now, spawned, h);
    }
  }

  function CountFor(spawned: seq<Upload>, peer: PeerId): nat {
    if spawned == [] then 0 else
    var n := |spawned| - 1;
    CountFor(spawned[..n], peer) + if spawned[n].to == peer then 1 else 0
  }

  lemma NextQuotient(n: nat, m: nat)
    requires n > 0 && m > 0
    ensures if n % m == 0 then n / m == (n - 1) / m + 1 && (n - 1) % m == m - 1
            else n / m == (n - 1) / m && n % m == (n - 1) % m + 1
  {
    var q, r := (n - 1) / m, (n - 1) % m;
    assert n == q * m + (r + 1);
    if r + 1 == m {
      assert n == (q + 1) * m;
      QuotientOf(n, m, q + 1, 0);
    } else {
      QuotientOf(n, m, q, r + 1);
    }
  }

  lemma NextTurn(n: nat, m: nat)
    requires m > 0
    ensures (n % m + 1) % m == (n + 1) % m
  {
    var q, r := n / m, n % m;
    assert n + 1 == q * m + (r + 1);
    if r + 1 == m {
      assert n + 1 == (q + 1) * m + 0;
      QuotientOf(n + 1, m, q + 1, 0);
      QuotientOf(m, m, 1, 0);
    } else {
      QuotientOf(n + 1, m, q, r + 1);
      QuotientOf(r + 1, m, 0, r + 1);
    }
  }

  lemma QuotientOf(n: nat, m: nat, q: nat, r: nat)
    requires m > 0 && n == q * m + r && r < m
    ensures n / m == q && n % m == r
  {
    assert n == n / m * m + n % m;
    var gap: int := m;
    assert (n / m - q) * m == r - n % m;
    assert -gap < (n / m - q) * m < gap;
    assert n / m - q == 0 by {
      assert !(n / m - q >= 1) && !(n / m - q <= -1);
    }
  }

  /** What the `i`-th of `m` peers gets of `n` deals. */
  function Share(n: nat, m: nat, i: nat): nat
    requires m > 0
  {
    n / m + if i < n % m then 1 else 0
  }

  lemma ShareStep(n: nat, m: nat, i: nat)
    requires n > 0 && i < m
    ensures Share(n, m, i) == Share(n - 1, m, i) + if (n - 1) % m == i then 1 else 0
  {
    NextQuotient(n, m);
  }

  lemma {:induction false} RoundRobinCount(spawned: seq<Upload>, peers: seq<PeerId>, i: nat)
    requires Distinct(peers) && i < |peers|
    requires forall k | 0 <= k < |spawned| :: spawned[k].to == peers[k % |peers|]
    ensures CountFor(spawned, peers[i]) == Share(|spawned|, |peers|, i)
  {
    if spawned != [] {
      var n := |spawned| - 1;
      RoundRobinCount(spawned[..n], peers, i);
      ShareStep(|spawned|, |peers|, i);
      var j := n % |peers|;
      assert spawned[n].to == peers[j];
      assert peers[j] == peers[i] <==> j == i;
    }
  }

  /** What a round does to the chunks, whatever the iteration orders. */
  lemma AssignmentContract(p: PipelineState, now: Instant, slots: nat, peers: seq<PeerId>, spawned: seq<Upload>)
    requires Assigns(p, now, slots, peers, spawned) && p.current.Some?
    ensures var before := p.current.value.chunks;
            var after := AfterAssign(p, now, spawned).current.value.chunks;
            && after.Keys == before.Keys
            // only chunks that are due change, and only by being sent to some peer now
            && (forall h | h in before && after[h] != before[h] ::
                  (before[h].status.Pending?
                   || (before[h].status.Inflight? && now >= before[h].at + (CHUNK_UPLOAD_WINDOW + 1) * MILLIS))
                  && exists k :: 0 <= k < |spawned| && spawned[k].hash == h
                                 && after[h] == Chunk(before[h].data, Inflight(spawned[k].to), now))
            // every upload has a chunk of its own, marked as sent to the upload's peer
            && (forall k | 0 <= k < |spawned| ::
                  spawned[k].hash in after && spawned[k].data == before[spawned[k].hash].data
                  && after[spawned[k].hash].status == Inflight(spawned[k].to))
            // and nothing else changes
            && AfterAssign(p, now, spawned) == p.(current := Some(p.current.value.(chunks := after)))
    // as many as there are slots, or chunks that are pending or were sent at least 31 s ago
    ensures var before := p.current.value.chunks;
            |spawned| == if forall q | q in p.permits :: p.permits[q] <= now then 0
                         else Min(slots, |set h | h in before
                                               && (before[h].status.Pending?
                                                   || (before[h].status.Inflight? && now >= before[h].at + 31_000))|)
  {
    RetargetEffect(p.current.value.chunks, now, spawned);
    RoundSize(p, now, slots, peers, spawned);
  }

  lemma RoundSize(p: PipelineState, now: Instant, slots: nat, peers: seq<PeerId>, spawned: seq<Upload>)
    requires Assigns(p, now, slots, peers, spawned) && p.current.Some?
    ensures var before := p.current.value.chunks;
            |spawned| == if forall q | q in p.permits :: p.permits[q] <= now then 0
                         else Min(slots, |set h | h in before
                                               && (before[h].status.Pending?
                                                   || (before[h].status.Inflight? && now >= before[h].at + 31_000))|)
  {
    DueExactly(p.current.value.chunks, now);
    if q :| q in p.permits && p.permits[q] > now {
      assert q in EligiblePeers(p.permits, now);
    } else {
      assert EligiblePeers(p.permits, now) == {};
    }
  }

  /** Due are the chunks that are pending, at once, and those in flight for at least 31 s. */
  lemma DueExactly(chunks: map<Hash, Chunk>, now: Instant)
    ensures EligibleChunks(chunks, now)
            == set h | h in chunks && (chunks[h].status.Pending?
                                       || (chunks[h].status.Inflight? && now >= chunks[h].at + 31_000))
  {
  }

  /** Whom a round deals to: only peers with an unexpired permit, and the numbers any two
      of those are given differ by at most one. */
  lemma FairDealing(p: PipelineState, now: Instant, slots: nat, peers: seq<PeerId>, spawned: seq<Upload>,
                    a: PeerId, b: PeerId)
    requires Assigns(p, now, slots, peers, spawned)
    requires a in EligiblePeers(p.permits, now) && b in EligiblePeers(p.permits, now)
    ensures forall k | 0 <= k < |spawned| :: spawned[k].to in p.permits && p.permits[spawned[k].to] > now
    ensures CountFor(spawned, a) <= CountFor(spawned, b) + 1
  {
    if slots != 0 && p.current.Some? {
      forall k | 0 <= k < |spawned|
        ensures spawned[k].to in p.permits && p.permits[spawned[k].to] > now
      {
        assert spawned[k].to in peers;
      }
      assert a in peers && b in peers;
      var i :| 0 <= i < |peers| && peers[i] == a;
      var j :| 0 <= j < |peers| && peers[j] == b;
      RoundRobinCount(spawned, peers, i);
      RoundRobinCount(spawned, peers, j);
    }
  }

  lemma SubsetSize<T>(a: set<T>, b: set<T>)
    requires a <= b
    ensures |a| <= |b|
  {
    assert b == a + (b - a);
  }

  /** The eligible ones among the first `i` chunks of a walk over the map. */
  function Passed(chunks: map<Hash, Chunk>, now: Instant, walk: seq<Hash>, i: nat): set<Hash>
    requires i <= |walk|
  {
    set h | h in walk[..i] && h in chunks && IsEligible(chunks[h], now)
  }

  /** How far the assignment loop has come after `i` chunks of its walk. */
  ghost predicate Dealt(chunks: map<Hash, Chunk>, now: Instant, walk: seq<Hash>, i: nat,
                        peers: seq<PeerId>, spawned: seq<Upload>)
  {
    && i <= |walk| && peers != []
    && |Passed(chunks, now, walk, i)| == |spawned|
    && (forall k | 0 <= k < |spawned| ::
          && spawned[k].hash in Passed(chunks, now, walk, i)
          && spawned[k].data == chunks[spawned[k].hash].data
          && spawned[k].to == peers[k % |peers|])
    && (forall j, k | 0 <= j < k < |spawned| :: spawned[j].hash != spawned[k].hash)
  }

  /** The next chunk of the walk has not been dealt, and is still as it was. */
  lemma NextIsFresh(chunks: map<Hash, Chunk>, now: Instant, walk: seq<Hash>, i: nat,
                    peers: seq<PeerId>, spawned: seq<Upload>)
    requires Dealt(chunks, now, walk, i, peers, spawned) && Enumerates(walk, chunks.Keys) && i < |walk|
    ensures walk[i] in chunks && walk[i] !in Passed(chunks, now, walk, i)
    ensures Retarget(chunks, now, spawned).Keys == chunks.Keys
    ensures Retarget(chunks, now, spawned)[walk[i]] == chunks[walk[i]]
  {
    assert walk[i] in walk;
    assert walk[i] !in walk[..i];
    RetargetEffect(chunks, now, spawned);
  }

  lemma PassedNext(chunks: map<Hash, Chunk>, now: Instant, walk: seq<Hash>, i: nat)
    requires i < |walk| && walk[i] in chunks
    ensures Passed(chunks, now, walk, i + 1)
         == Passed(chunks, now, walk, i) + if IsEligible(chunks[walk[i]], now) then {walk[i]} else {}
  {
    assert walk[..i + 1] == walk[..i] + [walk[i]];
  }

  /** A chunk that is not due is passed over. */
  lemma SkipNext(chunks: map<Hash, Chunk>, now: Instant, walk: seq<Hash>, i: nat,
                 peers: seq<PeerId>, spawned: seq<Upload>)
    requires Dealt(chunks, now, walk, i, peers, spawned) && i < |walk|
    requires walk[i] in chunks && !IsEligible(chunks[walk[i]], now)
    ensures Dealt(chunks, now, walk, i + 1, peers, spawned)
  {
    PassedNext(chunks, now, walk, i);
    assert Passed(chunks, now, walk, i + 1) == Passed(chunks, now, walk, i);
  }

  /** A chunk that is due goes to the peer whose turn it is. */
  lemma DealNext(chunks: map<Hash, Chunk>, now: Instant, walk: seq<Hash>, i: nat,
                 peers: seq<PeerId>, spawned: seq<Upload>, u: Upload)
    requires Dealt(chunks, now, walk, i, peers, spawned) && i < |walk|
    requires walk[i] in chunks && IsEligible(chunks[walk[i]], now) && walk[i] !in Passed(chunks, now, walk, i)
    requires u == Upload(walk[i], chunks[walk[i]].data, peers[|spawned| % |peers|])
    ensures Dealt(chunks, now, walk, i + 1, peers, spawned + [u])
  {
    PassedNext(chunks, now, walk, i);
    var passed, passed' := Passed(chunks, now, walk, i), Passed(chunks, now, walk, i + 1);
    assert passed' == passed + {u.hash};
    var spawned' := spawned + [u];
    forall k | 0 <= k < |spawned'|
      ensures spawned'[k].hash in passed' && spawned'[k].data == chunks[spawned'[k].hash].data
      ensures spawned'[k].to == peers[k % |peers|]
    {
      if k < |spawned| {
        assert spawned'[k] == spawned[k];
      }
    }
    forall j, k | 0 <= j < k < |spawned'| ensures spawned'[j].hash != spawned'[k].hash {
      assert spawned'[j] == spawned[j] && spawned[j].hash in passed;
    }
  }

  /** One deal: the chunk is marked, and it is the next peer's turn. */
  lemma DealTurn(chunks: map<Hash, Chunk>, now: Instant, walk: seq<Hash>, i: nat,
                 peers: seq<PeerId>, spawned: seq<Upload>, u: Upload)
    requires Dealt(chunks, now, walk, i, peers, spawned) && Enumerates(walk, chunks.Keys) && i < |walk|
    requires walk[i] in chunks && IsEligible(chunks[walk[i]], now)
    requires u == Upload(walk[i], chunks[walk[i]].data, peers[|spawned| % |peers|])
    ensures Dealt(chunks, now, walk, i + 1, peers, spawned + [u])
    ensures Retarget(chunks, now, spawned)[u.hash := Chunk(u.data, Inflight(u.to), now)]
         == Retarget(chunks, now, spawned + [u])
    ensures (|spawned| % |peers| + 1) % |peers| == |spawned + [u]| % |peers|
  {
    NextIsFresh(chunks, now, walk, i, peers, spawned);
    DealNext(chunks, now, walk, i, peers, spawned, u);
    NextTurn(|spawned|, |peers|);
    assert (spawned + [u])[..|spawned|] == spawned;
  }

  lemma DealtSchedules(chunks: map<Hash, Chunk>, now: Instant, walk: seq<Hash>, i: nat, slots: nat,
                       peers: seq<PeerId>, spawned: seq<Upload>)
    requires Dealt(chunks, now, walk, i, peers, spawned) && Enumerates(walk, chunks.Keys)
    requires |spawned| <= slots && (i == |walk| || |spawned| == slots)
    ensures Schedules(chunks, now, slots, peers, spawned)
  {
    var passed := Passed(chunks, now, walk, i);
    assert passed <= EligibleChunks(chunks, now);
    SubsetSize(passed, EligibleChunks(chunks, now));
    if i == |walk| {
      assert walk[..i] == walk;
      assert passed == EligibleChunks(chunks, now);
    }
  }

  // ---------------------------------------------------------------- the pipeline

  /** A hash map is walked in some order; nothing may depend on which. */
  method Enumerate<K(==, !new)>(keys: set<K>) returns (order: seq<K>)
    ensures Enumerates(order, keys)
  {
    order := [];
    var rest := keys;
    while rest != {}
      invariant rest <= keys
      invariant Enumerates(order, keys - rest)
      decreases rest
    {
      var k :| k in rest;
      ghost var previous := order;
      order, rest := order + [k], rest - {k};
      assert forall x :: x in order <==> x in previous || x == k;
    }
    assert keys - rest == keys;
  }

  class Pipeline {
    var remoteBlobs: set<string>
    var pending: seq<LocalBlob>
    var current: Option<LocalBlob>
    var hints: map<PeerId, Instant>
    var permits: map<PeerId, Instant>
    /** The upload semaphore, and how many running tasks hold one of its permits. */
    var freeSlots: nat
    var heldSlots: nat

    ghost function State(): PipelineState
      reads this
    {
      PipelineState(pending, current, hints, permits)
    }

    ghost predicate Valid()
      reads this
    {
      freeSlots + heldSlots == UPLOAD_SLOTS
    }

    constructor ()
      ensures Valid() && State() == PipelineState([], None, map[], map[]) && remoteBlobs == {}
    {
      remoteBlobs, pending, current, hints, permits := {}, [], None, map[], map[];
      freeSlots, heldSlots := UPLOAD_SLOTS, 0;
    }

    /** Upload tasks on other threads may end, and so give slots back, at any moment. */
    method SomeTasksEnd()
      requires Valid()
      modifies `freeSlots, `heldSlots
      ensures Valid() && freeSlots >= old(freeSlots)
    {
      var n: nat :| n <= heldSlots;
      freeSlots, heldSlots := freeSlots + n, heldSlots - n;
    }

    method TryAcquireSlot() returns (ok: bool)
      requires Valid()
      modifies `freeSlots, `heldSlots
      ensures Valid() && ok == (old(freeSlots) > 0)
      ensures freeSlots == old(freeSlots) - if ok then 1 else 0
    {
      ok := freeSlots > 0;
      if ok {
        freeSlots, heldSlots := freeSlots - 1, heldSlots + 1;
      }
    }

    method AddLocalBlobToQueue(b: AdmittedBlob, now: Instant)
      modifies `pending
      ensures State() == AddLocalBlob(old(State()), b, now)
    {
      pending := pending + [ToLocal(b, now)];
    }

    method RequestPermits(now: Instant) returns (asked: set<PeerId>)
      modifies `permits
      ensures State() == RequestStoragePermits(old(State()), now)
      // with somebody to ask, the table is pruned, and they are asked if nothing is left of it
      ensures hints == map[] ==> permits == old(permits)
      ensures hints != map[] ==> OnlyExpiredGone(old(permits), permits, now)
      ensures asked == if forall p | p in old(permits) :: old(permits)[p] <= now then hints.Keys else {}
    {
      asked := {};
      if hints == map[] {
        assert hints.Keys == {};
        return;
      }
      permits := map peer | peer in permits && permits[peer] > now :: permits[peer];
      if permits == map[] {
        asked := hints.Keys;
        assert forall p | p in old(permits) :: p !in permits;
      } else {
        var p :| p in permits;
      }
    }

    method BeginNext(now: Instant) returns (asked: set<PeerId>)
      modifies `pending, `current, `permits
      ensures State() == BeginNextBlob(old(State()), now)
      ensures var begins := old(current).None? && old(pending) != [];
              && AllBlobs(State()) == AllBlobs(old(State()))
              && (current.Some? <==> old(current).Some? || begins)
              && (begins && hints != map[] ==> OnlyExpiredGone(old(permits), permits, now))
              && (!begins || hints == map[] ==> permits == old(permits))
              && asked == if begins && forall p | p in old(permits) :: old(permits)[p] <= now then hints.Keys else {}
    {
      asked := {};
      if current.Some? {
        return;
      }
      if pending != [] {
        current, pending := Some(pending[0]), pending[1..];
        asked := RequestPermits(now);
      }
    }

    /** The loop of `assign_chunks` over the chunks, with the slots counted at entry.
        Slots given back meanwhile are left alone, and none that was counted is missed. */
    method DealOut(before: map<Hash, Chunk>, now: Instant, available: nat, order: seq<PeerId>)
      returns (chunks: map<Hash, Chunk>, spawned: seq<Upload>)
      requires Valid() && available <= freeSlots && order != []
      modifies `freeSlots, `heldSlots
      ensures Valid()
      ensures Schedules(before, now, available, order, spawned)
      ensures chunks == Retarget(before, now, spawned)
    {
      spawned, chunks := [], before;
      var walk := Enumerate(before.Keys);
      var i, peerIndex := 0, 0;
      while i < |walk| && |spawned| < available
        invariant 0 <= i <= |walk| && |spawned| <= available
        invariant Valid() && freeSlots >= available - |spawned|
        invariant peerIndex == |spawned| % |order|
        invariant Dealt(before, now, walk, i, order, spawned)
        invariant chunks == Retarget(before, now, spawned)
      {
        var hash := walk[i];
        NextIsFresh(before, now, walk, i, order, spawned);
        if IsEligible(chunks[hash], now) {
          SomeTasksEnd();
          var ok := TryAcquireSlot();
          assert ok;
          var upload := Upload(hash, chunks[hash].data, order[peerIndex]);
          DealTurn(before, now, walk, i, order, spawned, upload);
          chunks := chunks[hash := Chunk(chunks[hash].data, Inflight(upload.to), now)];
          spawned, peerIndex := spawned + [upload], (peerIndex + 1) % |order|;
        } else {
          SkipNext(before, now, walk, i, order, spawned);
        }
        i := i + 1;
      }
      DealtSchedules(before, now, walk, i, available, order, spawned);
    }

    /** `assign_chunks`. */
    method AssignChunks(now: Instant) returns (spawned: seq<Upload>, ghost peers: seq<PeerId>)
      requires Valid()
      modifies `current, `freeSlots, `heldSlots
      ensures Valid()
      ensures Assigns(old(State()), now, old(freeSlots), peers, spawned)
      ensures State() == AfterAssign(old(State()), now, spawned)
      ensures old(current).Some? ==>
                var before := old(current).value.chunks;
                |spawned| == if forall p | p in permits :: permits[p] <= now then 0
                             else Min(old(freeSlots), |set h | h in before
                                        && (before[h].status.Pending?
                                            || (before[h].status.Inflight? && now >= before[h].at + 31_000))|)
    {
      ghost var was, slots := State(), freeSlots;
      spawned, peers := [], [];
      var available := freeSlots;
      if available == 0 || current.None? {
        return;
      }
      var eligiblePeers := EligiblePeers(permits, now);
      if eligiblePeers == {} {
        RoundSize(was, now, slots, peers, spawned);
        return;
      }
      var order := Enumerate(eligiblePeers);
      EnumerationLength(order, eligiblePeers);
      var chunks;
      chunks, spawned := DealOut(current.value.chunks, now, available, order);
      peers := order;
      RoundSize(was, now, slots, peers, spawned);
      current := Some(current.value.(chunks := chunks));
    }

    /** The tail of an upload: its slot goes back, then its outcome is reported. */
    method FinishUpload(u: Upload, end: UploadEnd) returns (report: Option<(Hash, ChunkUploadStatus)>)
      requires Valid() && heldSlots > 0
      modifies `freeSlots, `heldSlots
      ensures Valid() && freeSlots == old(freeSlots) + 1
      ensures report == match ReportOf(u.to, end) case None => None case Some(status) => Some((u.hash, status))
      ensures end.Succeeded? ==> report == Some((u.hash, Finalized(u.to)))
      ensures end.PushFailed? ==> report == Some((u.hash, Pending))
      ensures end.TimedOut? ==> report == None
    {
      freeSlots, heldSlots := freeSlots + 1, heldSlots - 1;
      match end
      case Succeeded => report := Some((u.hash, Finalized(u.to)));
      case PushFailed => report := Some((u.hash, Pending));
      case TimedOut => report := None;
    }

    // The event handlers of `run`.

    method HandleStaleTimer(now: Instant) returns (asked: set<PeerId>)
      modifies `hints, `permits
      ensures State() == OnStaleTimer(old(State()), now)
      // hints last five minutes
      ensures forall peer :: peer in hints <==> peer in old(hints) && now < old(hints)[peer] + 300_000
      ensures forall peer | peer in hints :: hints[peer] == old(hints)[peer]
      ensures current.Some? && hints != map[] ==> OnlyExpiredGone(old(permits), permits, now)
      ensures current.None? || hints == map[] ==> permits == old(permits)
      ensures asked == if current.Some? && forall p | p in old(permits) :: old(permits)[p] <= now
                       then hints.Keys else {}
    {
      asked := {};
      hints := map peer | peer in hints && Seconds(Elapsed(now, hints[peer])) < STORAGE_PROVIDER_DECAY
                 :: hints[peer];
      if current.Some? {
        asked := RequestPermits(now);
      }
    }

    method HandleWouldStore(peer: PeerId, now: Instant)
      modifies `hints
      ensures State() == OnWouldStore(old(State()), peer, now)
      ensures hints.Keys == old(hints).Keys + {peer} && hints[peer] == now
      ensures forall p | p in old(hints) && p != peer :: hints[p] == old(hints)[p]
    {
      hints := hints[peer := now];
    }

    method HandlePermit(peer: PeerId, validFor: nat, now: Instant, maxInstant: Instant)
      returns (spawned: seq<Upload>, ghost peers: seq<PeerId>)
      requires Valid()
      modifies `permits, `current, `freeSlots, `heldSlots
      ensures Valid()
      ensures var p := OnPermit(old(State()), peer, Expiry(now, validFor, maxInstant));
              Assigns(p, now, old(freeSlots), peers, spawned) && State() == AfterAssign(p, now, spawned)
      ensures permits.Keys == old(permits).Keys + {peer}
      ensures permits[peer] == if now + validFor * 1000 <= maxInstant then now + validFor * 1000 else now
      ensures forall p | p in old(permits) && p != peer :: permits[p] == old(permits)[p]
    {
      var end := now + validFor * MILLIS;
      permits := permits[peer := if end <= maxInstant then end else now];
      spawned, peers := AssignChunks(now);
    }

    method HandleGetBlob(id: string)
      modifies `remoteBlobs
      ensures remoteBlobs == old(remoteBlobs) + {id}
    {
      remoteBlobs := remoteBlobs + {id};
    }

    method HandleNewBlob(b: AdmittedBlob, now: Instant) returns (asked: set<PeerId>)
      modifies `pending, `current, `permits
      ensures State() == OnNewBlob(old(State()), b, now)
      // the blob comes last, and begins at once exactly when nothing was there
      ensures PipeTickets(State()) == PipeTickets(old(State())) + [b.ticket]
      ensures old(current).Some? ==> current == old(current)
      ensures old(current).None? && old(pending) == [] ==> current.Some? && current.value.ticket == b.ticket
      // as stored, it has one pending chunk for each distinct hash
      ensures AllBlobs(State()) == AllBlobs(old(State())) + [AllBlobs(State())[|AllBlobs(old(State()))|]]
      ensures var mine := AllBlobs(State())[|AllBlobs(old(State()))|];
              && mine.id == b.id && mine.allowance == b.allowance && mine.leaves == HashesOf(b.leaves)
              && mine.createdAt == now && mine.ticket == b.ticket
              && (forall h :: h in mine.chunks <==> exists k :: 0 <= k < |b.leaves| && b.leaves[k].hash == h)
              && (forall h | h in mine.chunks ::
                    mine.chunks[h] == Chunk(mine.chunks[h].data, Pending, now)
                    && Leaf(h, mine.chunks[h].data) in b.leaves)
      // if a blob begins, expired permits go, and whoever hinted is asked if none is left
      ensures old(current).None? && hints != map[] ==> OnlyExpiredGone(old(permits), permits, now)
      ensures old(current).Some? || hints == map[] ==> permits == old(permits)
      ensures asked == if old(current).None? && forall p | p in old(permits) :: old(permits)[p] <= now
                       then hints.Keys else {}
      // no permit that still counts is lost
      ensures EligiblePeers(permits, now) == EligiblePeers(old(permits), now)
    {
      AddLocalBlobToQueue(b, now);
      asked := BeginNext(now);
      NewBlobAddsTicket(old(State()), b, now);
      FreshChunksAre(b.leaves, now);
      assert AllBlobs(State()) == AllBlobs(old(State())) + [ToLocal(b, now)];
    }

    /** `UpdateChunkStatus`; `stored` is the blob id the bridge is told about, if any. */
    method HandleUpdate(hash: Hash, status: ChunkUploadStatus, now: Instant)
      returns (stored: Option<string>, asked: set<PeerId>, spawned: seq<Upload>, ghost peers: seq<PeerId>)
      requires Valid()
      modifies `pending, `current, `permits, `freeSlots, `heldSlots
      ensures Valid()
      ensures var e := OnUpdate(old(State()), hash, status, now);
              && stored == (if e.stored.Some? then Some(e.stored.value.id) else None)
              && if e.reassign
                 then Assigns(e.pipe, now, old(freeSlots), peers, spawned)
                      && State() == AfterAssign(e.pipe, now, spawned)
                 else spawned == [] && State() == e.pipe
      // an update that finds no chunk does nothing
      ensures old(current).None? || hash !in old(current).value.chunks ==>
                stored == None && asked == {} && spawned == [] && State() == old(State()) && freeSlots == old(freeSlots)
      ensures old(current).Some? && hash in old(current).value.chunks ==>
                var blob := old(current).value;
                var marked := Marked(blob, hash, status, now);
                var rest := forall h | h in blob.chunks && h != hash :: blob.chunks[h].status.Finalized?;
                // a failure is noted
                && (!status.Finalized? ==>
                      && stored == None && asked == {} && spawned == [] && freeSlots == old(freeSlots)
                      && State() == old(State()).(current := Some(marked)))
                // a success is noted, and a round of assignment follows
                && (status.Finalized? && !rest ==>
                      && stored == None && asked == {}
                      && var p := old(State()).(current := Some(marked));
                         Assigns(p, now, old(freeSlots), peers, spawned) && State() == AfterAssign(p, now, spawned))
                // the last success completes the blob, the next one begins, and a round follows
                && (status.Finalized? && rest ==>
                      && stored == Some(blob.id)
                      && var p := (if old(pending) == [] then old(State()).(current := None)
                                   else PipelineState(old(pending)[1..], Some(old(pending)[0]), hints, permits));
                         && Assigns(p, now, old(freeSlots), peers, spawned) && State() == AfterAssign(p, now, spawned)
                         && (old(pending) != [] && hints != map[] ==> OnlyExpiredGone(old(permits), permits, now))
                         && (old(pending) == [] || hints == map[] ==> permits == old(permits))
                         && asked == if old(pending) != [] && forall q | q in old(permits) :: old(permits)[q] <= now
                                     then hints.Keys else {})
    {
      stored, asked, spawned, peers := None, {}, [], [];
      if current.None? || hash !in current.value.chunks {
        return;
      }
      var blob := current.value;
      blob := blob.(chunks := blob.chunks[hash := Chunk(blob.chunks[hash].data, status, now)]);
      current := Some(blob);
      if status.Finalized? {
        OthersDecide(old(current).value, hash, status, now);
        if AllFinalized(blob.chunks) {
          stored := Some(blob.id);
          current := None;
          asked := BeginNext(now);
        }
        spawned, peers := AssignChunks(now);
      }
    }
  }
}
