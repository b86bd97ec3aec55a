/** How `new_blob` (bin/client/src/bridge.rs) cuts an arbitrarily framed body into chunks,
    and how the chunks, stored by hash, give the body back. */
module Chunking {
  import opened Prelude

  /** A chunk with its hash; the hashes in order are the Merkle leaves. */
  datatype Leaf = Leaf(hash: Hash, data: Bytes)

  function DataOf(leaves: seq<Leaf>): (pieces: seq<Bytes>)
    ensures |pieces| == |leaves|
    ensures forall k | 0 <= k < |leaves| :: pieces[k] == leaves[k].data
  {
    seq(|leaves|, k requires 0 <= k < |leaves| => leaves[k].data)
  }

  function HashesOf(leaves: seq<Leaf>): (hashes: seq<Hash>)
    ensures |hashes| == |leaves|
    ensures forall k | 0 <= k < |leaves| :: hashes[k] == leaves[k].hash
  {
    seq(|leaves|, k requires 0 <= k < |leaves| => leaves[k].hash)
  }

  // ---------------------------------------------------------------- the reference

  /** The plain fixed-size split of a body. */
  function Split(body: Bytes, size: nat): seq<Bytes>
    requires size > 0
  {
    if body == [] then []
    else if |body| <= size then [body]
    else [body[..size]] + Split(body[size..], size)
  }

  /** Only the last piece may be short, none is empty, and together they are the body. */
  lemma {:induction false} SplitShape(body: Bytes, size: nat)
    requires size > 0
    ensures Concat(Split(body, size)) == body
    ensures |Split(body, size)| == DivCeil(|body|, size)
    ensures forall k | 0 <= k < |Split(body, size)| ::
              var n := |Split(body, size)[k]|;
              0 < n <= size && (k < |Split(body, size)| - 1 ==> n == size)
  {
    var pieces := Split(body, size);
    if body == [] {
      DivCeilUnique(0, size, 0);
    } else if |body| <= size {
      DivCeilUnique(|body|, size, 1);
      assert Concat([body]) == body + Concat([body][1..]) == body;
    } else {
      var rest := Split(body[size..], size);
      SplitShape(body[size..], size);
      assert pieces[1..] == rest;
      assert (|rest| + 1) * size == |rest| * size + size;
      DivCeilUnique(|body|, size, |rest| + 1);
    }
  }

  /** Full pieces followed by a short remainder can only be the split of what they spell. */
  lemma {:induction false} SplitUnique(pieces: seq<Bytes>, last: Bytes, size: nat)
    requires size > 0 && |last| < size
    requires forall k | 0 <= k < |pieces| :: |pieces[k]| == size
    ensures Split(Concat(pieces) + last, size) == pieces + (if last == [] then [] else [last])
  {
    if pieces == [] {
      assert Concat(pieces) + last == last;
    } else {
      var body := Concat(pieces) + last;
      var rest := Concat(pieces[1..]) + last;
      SplitUnique(pieces[1..], last, size);
      assert body == pieces[0] + rest;
      assert body[..size] == pieces[0] && body[size..] == rest;
      if rest == [] {
        assert pieces == [pieces[0]] + pieces[1..];
      } else {
        assert pieces == [pieces[0]] + pieces[1..];
        assert [pieces[0]] + (pieces[1..] + (if last == [] then [] else [last]))
            == pieces + (if last == [] then [] else [last]);
      }
    }
  }

  // ---------------------------------------------------------------- the streaming state

  /** `buf` and `chunks` of `new_blob`. */
  datatype Chunker = Chunker(buf: Bytes, chunks: seq<Leaf>)

  const EMPTY := Chunker([], [])

  ghost predicate WellHashed(hasher: Hasher, leaves: seq<Leaf>) {
    forall k | 0 <= k < |leaves| :: leaves[k].hash == hasher(leaves[k].data)
  }

  ghost predicate Valid(hasher: Hasher, size: nat, st: Chunker) {
    && |st.buf| < size
    && WellHashed(hasher, st.chunks)
    && forall k | 0 <= k < |st.chunks| :: |st.chunks[k].data| == size
  }

  /** The bytes taken in so far. */
  function Content(st: Chunker): Bytes {
    Concat(DataOf(st.chunks)) + st.buf
  }

  /** One turn of the inner loop: top the buffer up and ship it when it is full. */
  function Absorb(hasher: Hasher, size: nat, st: Chunker, piece: Bytes): Chunker {
    var buf := st.buf + piece;
    if |buf| == size then Chunker([], st.chunks + [Leaf(hasher(buf), buf)]) else st.(buf := buf)
  }

  /** The inner loop on a whole frame. */
  function Feed(hasher: Hasher, size: nat, st: Chunker, data: Bytes): Chunker
    requires |st.buf| < size
    decreases |data|
  {
    if data == [] then st else
    var take := Min(size - |st.buf|, |data|);
    Feed(hasher, size, Absorb(hasher, size, st, data[..take]), data[take..])
  }

  lemma AbsorbKeeps(hasher: Hasher, size: nat, st: Chunker, piece: Bytes)
    requires Valid(hasher, size, st) && |piece| <= size - |st.buf|
    ensures Valid(hasher, size, Absorb(hasher, size, st, piece))
    ensures Content(Absorb(hasher, size, st, piece)) == Content(st) + piece
  {
    var t := Absorb(hasher, size, st, piece);
    if |st.buf + piece| == size {
      assert DataOf(t.chunks) == DataOf(st.chunks) + [st.buf + piece];
      ConcatSnoc(DataOf(st.chunks), st.buf + piece);
    }
  }

  lemma FeedUnfolds(hasher: Hasher, size: nat, st: Chunker, data: Bytes) returns (next: Chunker, rest: Bytes)
    requires Valid(hasher, size, st) && data != []
    ensures Valid(hasher, size, next) && |rest| < |data|
    ensures Feed(hasher, size, st, data) == Feed(hasher, size, next, rest)
    ensures Content(next) + rest == Content(st) + data
  {
    var take := Min(size - |st.buf|, |data|);
    next, rest := Absorb(hasher, size, st, data[..take]), data[take..];
    AbsorbKeeps(hasher, size, st, data[..take]);
    assert data == data[..take] + rest;
  }

  /** A frame adds its bytes, whatever its length. */
  lemma {:induction false} FeedKeeps(hasher: Hasher, size: nat, st: Chunker, data: Bytes)
    requires Valid(hasher, size, st)
    ensures Valid(hasher, size, Feed(hasher, size, st, data))
    ensures Content(Feed(hasher, size, st, data)) == Content(st) + data
    decreases |data|
  {
    if data != [] {
      var next, rest := FeedUnfolds(hasher, size, st, data);
      FeedKeeps(hasher, size, next, rest);
    }
  }

  /** What is sent on: the full chunks, and the rest of the buffer if there is any. */
  function Finish(hasher: Hasher, st: Chunker): seq<Leaf> {
    if st.buf == [] then st.chunks else st.chunks + [Leaf(hasher(st.buf), st.buf)]
  }

  lemma FinishIsSplit(hasher: Hasher, size: nat, st: Chunker)
    requires Valid(hasher, size, st)
    ensures DataOf(Finish(hasher, st)) == Split(Content(st), size)
    ensures WellHashed(hasher, Finish(hasher, st))
    ensures |Finish(hasher, st)| == DivCeil(|Content(st)|, size)
    ensures forall k | 0 <= k < |Finish(hasher, st)| :: 0 < |Finish(hasher, st)[k].data| <= size
  {
    SplitUnique(DataOf(st.chunks), st.buf, size);
    SplitShape(Content(st), size);
    assert DataOf(Finish(hasher, st)) == DataOf(st.chunks) + (if st.buf == [] then [] else [st.buf]);
    forall k | 0 <= k < |Finish(hasher, st)| ensures 0 < |Finish(hasher, st)[k].data| <= size {
      assert Finish(hasher, st)[k].data == Split(Content(st), size)[k];
    }
  }

  // ---------------------------------------------------------------- the loops of new_blob

  /** What the body stream yields, one item per wait; the list ends where the stream does. */
  datatype BodyEvent = Data(bytes: Bytes) | StreamError | IdleTimeout

  datatype StatusCode = BadRequest | RequestTimeout | InternalError
                      | LengthRequired | PayloadTooLarge | Conflict | ServiceUnavailable

  datatype Streamed = Chunks(leaves: seq<Leaf>) | Aborted(code: StatusCode)

  /** The verdict on the stream itself, from `received` bytes on. */
  function Verdict(events: seq<BodyEvent>, received: nat, declared: nat): Option<StatusCode> {
    if events == [] then
      if received == declared then None else Some(BadRequest)
    else match events[0]
      case IdleTimeout => Some(RequestTimeout)
      case StreamError => Some(BadRequest)
      case Data(d) =>
        if received + |d| > declared then Some(BadRequest)
        else Verdict(events[1..], received + |d|, declared)
  }

  predicate AllData(events: seq<BodyEvent>) {
    forall k | 0 <= k < |events| :: events[k].Data?
  }

  /** The bytes of a stream that only yields data. */
  function BodyOf(events: seq<BodyEvent>): Bytes
    requires AllData(events)
  {
    if events == [] then [] else events[0].bytes + BodyOf(events[1..])
  }

  /** A stream passes exactly when it yields only data and the data is as long as declared. */
  lemma {:induction false} PassesExactly(events: seq<BodyEvent>, received: nat, declared: nat)
    ensures Verdict(events, received, declared).None?
            <==> AllData(events) && received + |BodyOf(events)| == declared
  {
    if events != [] {
      if events[0].Data? {
        PassesExactly(events[1..], received + |events[0].bytes|, declared);
        assert AllData(events) <==> AllData(events[1..]);
      } else {
        assert !AllData(events);
      }
    }
  }

  /** Data only, and no more than declared. */
  predicate Within(events: seq<BodyEvent>, received: nat, declared: nat) {
    AllData(events) && received + |BodyOf(events)| <= declared
  }

  /** The client is told of a timeout exactly if silence is the first thing that goes wrong. */
  lemma {:induction false} TimesOutExactly(events: seq<BodyEvent>, received: nat, declared: nat)
    requires received <= declared
    ensures Verdict(events, received, declared) in {None, Some(RequestTimeout), Some(BadRequest)}
    ensures Verdict(events, received, declared) == Some(RequestTimeout)
            <==> exists i :: 0 <= i < |events| && events[i].IdleTimeout? && Within(events[..i], received, declared)
  {
    if events != [] {
      var rest := events[1..];
      forall i | 0 < i <= |events| ensures events[..i] == [events[0]] + rest[..i - 1] {
      }
      if events[0].Data? && received + |events[0].bytes| <= declared {
        var received' := received + |events[0].bytes|;
        TimesOutExactly(rest, received', declared);
        forall i | 0 < i <= |events|
          ensures Within(events[..i], received, declared) <==> Within(rest[..i - 1], received', declared)
        {
          assert events[..i][1..] == rest[..i - 1];
          assert AllData(events[..i]) <==> AllData(rest[..i - 1]);
        }
        if Verdict(rest, received', declared) == Some(RequestTimeout) {
          var j :| 0 <= j < |rest| && rest[j].IdleTimeout? && Within(rest[..j], received', declared);
          assert events[j + 1].IdleTimeout? && Within(events[..j + 1], received, declared);
        }
        if i :| 0 <= i < |events| && events[i].IdleTimeout? && Within(events[..i], received, declared) {
          assert rest[i - 1].IdleTimeout? && Within(rest[..i - 1], received', declared);
        }
      } else {
        assert events[..0] == [];
        forall i | 0 < i < |events| ensures !Within(events[..i], received, declared) {
          assert events[..i][0] == events[0];
        }
      }
    }
  }

  lemma {:induction false} BodyOfSnoc(events: seq<BodyEvent>, d: Bytes)
    requires AllData(events)
    ensures AllData(events + [Data(d)]) && BodyOf(events + [Data(d)]) == BodyOf(events) + d
  {
    if events == [] {
      assert [Data(d)][1..] == [];
      assert BodyOf([Data(d)]) == d + BodyOf([]);
    } else {
      assert (events + [Data(d)])[1..] == events[1..] + [Data(d)];
      BodyOfSnoc(events[1..], d);
    }
  }

  /** `hash_chunk` on the next chunk: it may fail, by `fails` on the chunk's index. */
  method HashChunk(hasher: Hasher, fails: nat -> bool, index: nat, chunk: Bytes) returns (leaf: Option<Leaf>)
    ensures leaf == if fails(index) then None else Some(Leaf(hasher(chunk), chunk))
  {
    leaf := if fails(index) then None else Some(Leaf(hasher(chunk), chunk));
  }

  /** The inner loop on one frame; `None` when a chunk could not be hashed. */
  method TakeFrame(st: Chunker, frame: Bytes, size: nat, hasher: Hasher, fails: nat -> bool)
    returns (result: Option<Chunker>)
    requires |st.buf| < size
    ensures result.Some? ==> result.value == Feed(hasher, size, st, frame)
    ensures (forall k :: !fails(k)) ==> result.Some?
  {
    var buf, chunks, data := st.buf, st.chunks, frame;
    while data != []
      invariant |buf| < size
      invariant Feed(hasher, size, Chunker(buf, chunks), data) == Feed(hasher, size, st, frame)
      decreases |data|
    {
      var take := Min(size - |buf|, |data|);
      ghost var step := Absorb(hasher, size, Chunker(buf, chunks), data[..take]);
      buf, data := buf + data[..take], data[take..];
      if |buf| == size {
        var leaf := HashChunk(hasher, fails, |chunks|, buf);
        if leaf.None? {
          return None;
        }
        buf, chunks := [], chunks + [leaf.value];
      }
      assert Chunker(buf, chunks) == step;
    }
    return Some(Chunker(buf, chunks));
  }

  /** What the outer loop knows after `i` items. */
  ghost predicate Taken(hasher: Hasher, size: nat, declared: nat, events: seq<BodyEvent>, i: nat,
                        st: Chunker, received: nat)
  {
    && i <= |events|
    && Verdict(events[i..], received, declared) == Verdict(events, 0, declared)
    && AllData(events[..i]) && received == |BodyOf(events[..i])| <= declared
    && Valid(hasher, size, st) && Content(st) == BodyOf(events[..i])
  }

  lemma NoneTaken(hasher: Hasher, size: nat, declared: nat, events: seq<BodyEvent>)
    requires size > 0
    ensures Taken(hasher, size, declared, events, 0, EMPTY, 0)
  {
    assert events[0..] == events && events[..0] == [];
    assert DataOf(EMPTY.chunks) == [];
  }

  lemma TakeNext(hasher: Hasher, size: nat, declared: nat, events: seq<BodyEvent>, i: nat, st: Chunker, received: nat)
    requires Taken(hasher, size, declared, events, i, st, received) && i < |events|
    ensures !events[i].Data? || received + |events[i].bytes| > declared ==>
              Verdict(events, 0, declared) ==
              Some(if events[i].IdleTimeout? then RequestTimeout else BadRequest)
    ensures events[i].Data? && received + |events[i].bytes| <= declared ==>
              Taken(hasher, size, declared, events, i + 1, Feed(hasher, size, st, events[i].bytes),
                    received + |events[i].bytes|)
  {
    assert events[i..][1..] == events[i + 1..];
    if events[i].Data? {
      FeedKeeps(hasher, size, st, events[i].bytes);
      assert events[..i + 1] == events[..i] + [Data(events[i].bytes)];
      BodyOfSnoc(events[..i], events[i].bytes);
    }
  }

  /** What it knows after the last one. */
  lemma AllTaken(hasher: Hasher, size: nat, declared: nat, events: seq<BodyEvent>, st: Chunker, received: nat)
    requires Taken(hasher, size, declared, events, |events|, st, received)
    ensures AllData(events) && |BodyOf(events)| == received
    ensures Verdict(events, 0, declared) == if received == declared then None else Some(BadRequest)
    ensures DataOf(Finish(hasher, st)) == Split(BodyOf(events), size) && WellHashed(hasher, Finish(hasher, st))
    ensures |Finish(hasher, st)| == DivCeil(received, size)
  {
    assert events[..|events|] == events;
    assert Verdict(events[|events|..], received, declared) == Verdict([], received, declared);
    FinishIsSplit(hasher, size, st);
  }

  /** The two nested loops and the tail flush. For a stream without faults the result is
      exactly the fixed-size split of the whole body, and it succeeds exactly when the body
      is as long as declared. */
  method StreamBody(events: seq<BodyEvent>, declared: nat, size: nat, hasher: Hasher, fails: nat -> bool)
    returns (result: Streamed)
    requires size > 0
    ensures result.Chunks? ==>
              && AllData(events) && |BodyOf(events)| == declared
              && DataOf(result.leaves) == Split(BodyOf(events), size)
              && WellHashed(hasher, result.leaves)
              && |result.leaves| == DivCeil(declared, size)
    ensures (forall k :: !fails(k)) ==>
              match Verdict(events, 0, declared)
              case None => result.Chunks?
              case Some(code) => result == Aborted(code)
    ensures result.Aborted? && result.code != InternalError ==>
              Verdict(events, 0, declared) == Some(result.code)
  {
    var st := EMPTY;
    var received: nat := 0;
    NoneTaken(hasher, size, declared, events);
    for i := 0 to |events|
      invariant Taken(hasher, size, declared, events, i, st, received)
    {
      TakeNext(hasher, size, declared, events, i, st, received);
      if events[i].IdleTimeout? {
        return Aborted(RequestTimeout);
      }
      if events[i].StreamError? {
        return Aborted(BadRequest);
      }
      received := received + |events[i].bytes|;
      if received > declared {
        return Aborted(BadRequest);
      }
      var fed := TakeFrame(st, events[i].bytes, size, hasher, fails);
      if fed.None? {
        return Aborted(InternalError);
      }
      st := fed.value;
    }
    AllTaken(hasher, size, declared, events, st, received);
    if received != declared {
      return Aborted(BadRequest);
    }
    var chunks := st.chunks;
    if st.buf != [] {
      var leaf := HashChunk(hasher, fails, |chunks|, st.buf);
      if leaf.None? {
        return Aborted(InternalError);
      }
      chunks := chunks + [leaf.value];
    }
    assert chunks == Finish(hasher, st);
    return Chunks(chunks);
  }

  // ---------------------------------------------------------------- stored by hash

  /** The chunk list collected into a map keyed by hash: a later chunk overwrites. */
  function Collapse(leaves: seq<Leaf>): map<Hash, Bytes> {
    if leaves == [] then map[] else
    var n := |leaves| - 1;
    Collapse(leaves[..n])[leaves[n].hash := leaves[n].data]
  }

  /** The entry for a hash is the last chunk that has it. */
  lemma {:induction false} CollapseEntry(leaves: seq<Leaf>, k: nat) returns (j: nat)
    requires k < |leaves|
    ensures k <= j < |leaves| && leaves[j].hash == leaves[k].hash
    ensures leaves[k].hash in Collapse(leaves) && Collapse(leaves)[leaves[k].hash] == leaves[j].data
  {
    var n := |leaves| - 1;
    if leaves[n].hash == leaves[k].hash {
      j := n;
    } else {
      j := CollapseEntry(leaves[..n], k);
    }
  }

  /** Every entry is some chunk. */
  lemma {:induction false} CollapseOrigin(leaves: seq<Leaf>, h: Hash) returns (k: nat)
    requires h in Collapse(leaves)
    ensures k < |leaves| && leaves[k] == Leaf(h, Collapse(leaves)[h])
  {
    var n := |leaves| - 1;
    if h == leaves[n].hash {
      k := n;
    } else {
      k := CollapseOrigin(leaves[..n], h);
    }
  }

  lemma {:induction false} CollapseSize(leaves: seq<Leaf>)
    ensures |Collapse(leaves)| <= |leaves|
    ensures leaves != [] ==> |Collapse(leaves)| > 0
  {
    if leaves != [] {
      var n := |leaves| - 1;
      var front := Collapse(leaves[..n]);
      CollapseSize(leaves[..n]);
      assert Collapse(leaves).Keys == front.Keys + {leaves[n].hash};
      assert |Collapse(leaves)| == |Collapse(leaves).Keys|;
      assert |front| == |front.Keys|;
    }
  }

  /** Look every leaf up in order. */
  function Lookup(hashes: seq<Hash>, store: map<Hash, Bytes>): seq<Bytes>
    requires forall k | 0 <= k < |hashes| :: hashes[k] in store
  {
    seq(|hashes|, k requires 0 <= k < |hashes| => store[hashes[k]])
  }

  lemma LeavesAreStored(leaves: seq<Leaf>)
    ensures forall k | 0 <= k < |leaves| :: leaves[k].hash in Collapse(leaves)
  {
    forall k | 0 <= k < |leaves| ensures leaves[k].hash in Collapse(leaves) {
      var _ := CollapseEntry(leaves, k);
    }
  }

  /** The stored chunks in leaf order. */
  function Reassemble(leaves: seq<Leaf>): Bytes {
    LeavesAreStored(leaves);
    Concat(Lookup(HashesOf(leaves), Collapse(leaves)))
  }

  ghost predicate NoClash(leaves: seq<Leaf>) {
    forall i, k | 0 <= i < |leaves| && 0 <= k < |leaves| && leaves[i].hash == leaves[k].hash ::
      leaves[i].data == leaves[k].data
  }

  lemma {:induction false} ConcatOfShorter(a: seq<Bytes>, b: seq<Bytes>)
    requires |a| == |b| && forall k | 0 <= k < |a| :: |a[k]| <= |b[k]|
    ensures |Concat(a)| <= |Concat(b)|
    ensures Concat(a) == Concat(b) ==> a == b
  {
    if a != [] {
      ConcatOfShorter(a[1..], b[1..]);
      if Concat(a) == Concat(b) {
        assert a[0] == Concat(a)[..|a[0]|] == Concat(b)[..|a[0]|] == b[0];
        assert Concat(a[1..]) == Concat(a)[|a[0]|..] == Concat(b[1..]);
        assert a == [a[0]] + a[1..] && b == [b[0]] + b[1..];
      }
    }
  }

  lemma StoredChunk(leaves: seq<Leaf>, k: nat) returns (j: nat)
    requires k < |leaves|
    ensures k <= j < |leaves| && leaves[j].hash == leaves[k].hash
    ensures forall i | 0 <= i < |leaves| :: leaves[i].hash in Collapse(leaves)
    ensures Lookup(HashesOf(leaves), Collapse(leaves))[k] == leaves[j].data
  {
    LeavesAreStored(leaves);
    j := CollapseEntry(leaves, k);
  }

  lemma LookupExactly(leaves: seq<Leaf>)
    ensures forall i | 0 <= i < |leaves| :: leaves[i].hash in Collapse(leaves)
    ensures Lookup(HashesOf(leaves), Collapse(leaves)) == DataOf(leaves) <==> NoClash(leaves)
  {
    LeavesAreStored(leaves);
    var found := Lookup(HashesOf(leaves), Collapse(leaves));
    if NoClash(leaves) {
      forall k | 0 <= k < |leaves| ensures found[k] == DataOf(leaves)[k] {
        var j := StoredChunk(leaves, k);
      }
      assert found == DataOf(leaves);
    }
    if found == DataOf(leaves) {
      forall i, k | 0 <= i < |leaves| && 0 <= k < |leaves| && leaves[i].hash == leaves[k].hash
        ensures leaves[i].data == leaves[k].data
      {
        assert found[i] == found[k];
        assert DataOf(leaves)[i] == leaves[i].data && DataOf(leaves)[k] == leaves[k].data;
      }
    }
  }

  ghost predicate OnlyLastShort(pieces: seq<Bytes>, size: nat) {
    forall k | 0 <= k < |pieces| :: |pieces[k]| <= size && (k < |pieces| - 1 ==> |pieces[k]| == size)
  }

  lemma RebuildSized(leaves: seq<Leaf>, size: nat)
    requires OnlyLastShort(DataOf(leaves), size)
    ensures Reassemble(leaves) == Concat(DataOf(leaves)) <==> NoClash(leaves)
  {
    LookupExactly(leaves);
    var found := Lookup(HashesOf(leaves), Collapse(leaves));
    var pieces := DataOf(leaves);
    forall k | 0 <= k < |found| ensures |found[k]| <= |pieces[k]| {
      var j := StoredChunk(leaves, k);
      assert found[k] == pieces[j];
    }
    ConcatOfShorter(found, pieces);
  }

  /** Dedup loses nothing exactly when no two different chunks share a hash: for the chunks
      of any body, the stored chunks in leaf order give the body back if and only if that
      is so. */
  lemma RebuildExactly(hasher: Hasher, size: nat, st: Chunker)
    requires Valid(hasher, size, st)
    ensures Reassemble(Finish(hasher, st)) == Content(st) <==> NoClash(Finish(hasher, st))
  {
    FinishIsSplit(hasher, size, st);
    SplitShape(Content(st), size);
    RebuildSized(Finish(hasher, st), size);
  }

  ghost function AllDataOf(leaves: seq<Leaf>): set<Bytes> {
    set k | 0 <= k < |leaves| :: leaves[k].data
  }

  lemma CollisionFreeMeansNoClash(hasher: Hasher, leaves: seq<Leaf>)
    requires WellHashed(hasher, leaves) && CollisionFree(hasher, AllDataOf(leaves))
    ensures NoClash(leaves)
  {
    forall i, k | 0 <= i < |leaves| && 0 <= k < |leaves| && leaves[i].hash == leaves[k].hash
      ensures leaves[i].data == leaves[k].data
    {
      assert leaves[i].data in AllDataOf(leaves) && leaves[k].data in AllDataOf(leaves);
    }
  }

  /** With a hash that does not collide on the chunks, nothing is lost. */
  lemma CollisionFreeRebuild(hasher: Hasher, size: nat, st: Chunker)
    requires Valid(hasher, size, st) && CollisionFree(hasher, AllDataOf(Finish(hasher, st)))
    ensures Reassemble(Finish(hasher, st)) == Content(st)
  {
    FinishIsSplit(hasher, size, st);
    CollisionFreeMeansNoClash(hasher, Finish(hasher, st));
    RebuildExactly(hasher, size, st);
  }
}
