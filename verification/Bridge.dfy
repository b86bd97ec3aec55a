/** The HTTP bridge of bin/client/src/bridge.rs: the shared status map, reservations that
    roll themselves back, the permit budget, and the upload handler built from them. */
module Bridge {
  import opened Prelude
  import opened Chunking
  import Coordinator

  const MAX_BLOB_SIZE := 0x4000_0000
  const TOTAL_CHUNK_BUDGET := 1536

  datatype BlobStatus = Pending | Finalized | Failed(reason: Option<string>)

  /** Per validated id, everything that was ever reported, oldest first. */
  type StatusMap = map<string, seq<BlobStatus>>

  datatype ToPipeline = GetBlob(id: string) | NewBlob(blob: Coordinator.AdmittedBlob)

  /** How ids are validated: parsed and printed back, or refused. */
  type IdPrinter = string -> Option<string>

  function Reserve(m: StatusMap, key: string): StatusMap {
    m[key := [Pending]]
  }

  function Release(m: StatusMap, key: string): StatusMap {
    m - {key}
  }

  /** A status update from the coordinator; an unknown id is only logged. */
  function Record(m: StatusMap, id: string, status: BlobStatus): StatusMap {
    if id in m then m[id := m[id] + [status]] else m
  }

  /** `get_blob` leaves a pending entry for an id nobody knows. */
  function Inquire(m: StatusMap, key: string): StatusMap {
    if key in m then m else m[key := [Pending]]
  }

  // ---------------------------------------------------------------- rolling back among others

  /** What other requests and the coordinator may do to the map meanwhile. */
  datatype MapEvent =
    | TryReserve(id: string)                  // another upload; a taken id is a conflict
    | GiveUp(id: string)                      // another upload rolls back
    | Look(id: string)                        // `get_blob`
    | Report(id: string, status: BlobStatus)  // the coordinator

  function After(m: StatusMap, e: MapEvent): StatusMap {
    match e
    case TryReserve(id) => if id in m then m else Reserve(m, id)
    case GiveUp(id) => Release(m, id)
    case Look(id) => Inquire(m, id)
    case Report(id, status) => Record(m, id, status)
  }

  function AfterAll(m: StatusMap, events: seq<MapEvent>): StatusMap {
    if events == [] then m else After(AfterAll(m, events[..|events| - 1]), events[|events| - 1])
  }

  /** Nobody else gives up a reservation it does not hold. */
  ghost predicate NotTheirs(events: seq<MapEvent>, key: string) {
    forall k | 0 <= k < |events| && events[k].GiveUp? :: events[k].id != key
  }

  /** A reservation changes nothing for other ids, keeps the id taken, and hides only what
      would have been an entry for that very id. */
  lemma {:induction false} ReservationIsLocal(m: StatusMap, key: string, events: seq<MapEvent>)
    requires key !in m && NotTheirs(events, key)
    ensures key in AfterAll(Reserve(m, key), events)
    ensures AfterAll(Reserve(m, key), events) - {key} == AfterAll(m, events) - {key}
  {
    if events != [] {
      var last := |events| - 1;
      ReservationIsLocal(m, key, events[..last]);
      LocalStep(AfterAll(Reserve(m, key), events[..last]), AfterAll(m, events[..last]), key, events[last]);
    }
  }

  lemma LocalStep(m: StatusMap, m': StatusMap, key: string, e: MapEvent)
    requires key in m && m - {key} == m' - {key} && (e.GiveUp? ==> e.id != key)
    ensures key in After(m, e) && After(m, e) - {key} == After(m', e) - {key}
  {
    assert forall k :: k in m - {key} <==> k in m && k != key;
    assert forall k :: k in m' - {key} <==> k in m' && k != key;
    forall k | k != key
      ensures k in m <==> k in m'
      ensures k in m ==> m[k] == m'[k]
    {
      assert k in m <==> k in m - {key};
      assert k in m' <==> k in m' - {key};
    }
  }

  /** An upload that gives up leaves no trace, whatever else went on meanwhile, if and only
      if nothing else would have made an entry for its id. (A `get_blob` for that id in the
      meantime would have: its entry goes with the reservation.) */
  lemma {:induction false} RollbackIsInvisibleExactly(m: StatusMap, key: string, events: seq<MapEvent>)
    requires key !in m && NotTheirs(events, key)
    ensures Release(AfterAll(Reserve(m, key), events), key) == AfterAll(m, events) <==> key !in AfterAll(m, events)
  {
    ReservationIsLocal(m, key, events);
    var plain := AfterAll(m, events);
    if key !in plain {
      assert plain - {key} == plain;
    }
  }

  /** What the size checks ahead of any reservation let through. */
  predicate Admissible(declared: nat, size: nat)
    requires size > 0
  {
    0 < declared <= MAX_BLOB_SIZE && DivCeil(declared, size) <= TOTAL_CHUNK_BUDGET
  }

  datatype Response = Created(id: string) | Rejected(code: StatusCode)

  /** The shared state of the handlers. `sent` is what went into the admission channel. */
  class BridgeState {
    const canon: IdPrinter
    const hasher: Hasher
    const size: nat
    var statusMap: StatusMap
    var budget: nat
    var sent: seq<ToPipeline>

    constructor (canon: IdPrinter, hasher: Hasher, size: nat)
      ensures this.canon == canon && this.hasher == hasher && this.size == size
      ensures statusMap == map[] && budget == 1536 && sent == []
    {
      this.canon, this.hasher, this.size := canon, hasher, size;
      statusMap, budget, sent := map[], TOTAL_CHUNK_BUDGET, [];
    }

    method TryAcquire(n: nat) returns (ok: bool)
      modifies `budget
      ensures ok <==> n <= old(budget)
      ensures budget == old(budget) - if ok then n else 0
    {
      ok := n <= budget;
      if ok {
        budget := budget - n;
      }
    }

    method UpdateStatus(id: string, status: BlobStatus)
      modifies `statusMap
      ensures statusMap == Record(old(statusMap), id, status)
      // no entry comes or goes, none but this one changes, and nothing reported is forgotten
      ensures statusMap.Keys == old(statusMap).Keys
      ensures forall k | k in statusMap && k != id :: statusMap[k] == old(statusMap)[k]
      ensures id in statusMap ==>
                |statusMap[id]| == |old(statusMap)[id]| + 1 && old(statusMap)[id] < statusMap[id]
                && statusMap[id][|old(statusMap)[id]|] == status
    {
      if id in statusMap {
        statusMap := statusMap[id := statusMap[id] + [status]];
      }
    }

    /** The entry `get_blob` works on; `None` for an id that does not validate. */
    method LookUpBlob(id: string) returns (status: Option<BlobStatus>)
      requires forall k | k in statusMap :: statusMap[k] != []
      modifies `statusMap
      ensures status.Some? <==> canon(id).Some?
      ensures status.Some? ==>
                && statusMap == Inquire(old(statusMap), canon(id).value)
                && var entries := statusMap[canon(id).value];
                   entries != [] && status.value == entries[|entries| - 1]
      ensures status.None? ==> statusMap == old(statusMap)
    {
      var key := canon(id);
      if key.None? {
        return None;
      }
      if key.value !in statusMap {
        statusMap := statusMap[key.value := [Pending]];
        return Some(Pending);
      }
      var entries := statusMap[key.value];
      return Some(entries[|entries| - 1]);
    }

    /** `new_blob` run without interference: a rejected call leaves no trace, a created one
        leaves one reservation, holds its permits, and sends one blob whose chunks are the
        fixed-size split of the body. It is created exactly when nothing is wrong. */
    method NewBlob(id: string, contentLength: Option<nat>, events: seq<BodyEvent>,
                   fails: nat -> bool, channelOpen: bool, ticket: nat)
      returns (response: Response)
      requires size > 0
      modifies this
      ensures response.Rejected? ==>
                statusMap == old(statusMap) && budget == old(budget) && sent == old(sent)
      ensures response.Created? ==>
                && response.id == id && canon(id).Some? && contentLength.Some?
                && canon(id).value !in old(statusMap)
                && statusMap == Reserve(old(statusMap), canon(id).value)
                && budget == old(budget) - DivCeil(contentLength.value, size)
                && |sent| == |old(sent)| + 1 && sent[..|old(sent)|] == old(sent)
                && var m := sent[|old(sent)|];
                   m.NewBlob? && m.blob.id == id && m.blob.ticket == ticket
                   && m.blob.allowance == |m.blob.leaves| == DivCeil(contentLength.value, size)
                   && AllData(events) && DataOf(m.blob.leaves) == Split(BodyOf(events), size)
                   && WellHashed(hasher, m.blob.leaves)
      ensures channelOpen && (forall k :: !fails(k)) ==>
                (response.Created? <==>
                   && contentLength.Some?
                   && 0 < contentLength.value <= 1_073_741_824 && DivCeil(contentLength.value, size) <= 1536
                   && canon(id).Some? && canon(id).value !in old(statusMap)
                   && DivCeil(contentLength.value, size) <= old(budget)
                   && AllData(events) && |BodyOf(events)| == contentLength.value)
      // the refusals ahead of the body, in this order
      ensures contentLength.None? ==> response == Rejected(LengthRequired)
      ensures contentLength.Some? ==>
                var d := contentLength.value;
                && (d == 0 ==> response == Rejected(BadRequest))
                && (d > 0 && (d > 1_073_741_824 || DivCeil(d, size) > 1536) ==> response == Rejected(PayloadTooLarge))
                && (0 < d <= 1_073_741_824 && DivCeil(d, size) <= 1536 ==>
                      && (canon(id).None? ==> response == Rejected(BadRequest))
                      && (canon(id).Some? && canon(id).value in old(statusMap) ==> response == Rejected(Conflict))
                      && (canon(id).Some? && canon(id).value !in old(statusMap) && DivCeil(d, size) > old(budget) ==>
                            response == Rejected(ServiceUnavailable)))
      ensures canon(id).Some? && canon(id).value in old(statusMap) ==> response.Rejected?
    {
      if contentLength.None? {
        return Rejected(LengthRequired);
      }
      var declared := contentLength.value;
      if declared == 0 {
        return Rejected(BadRequest);
      }
      var numChunks := DivCeil(declared, size);
      if declared > MAX_BLOB_SIZE || numChunks > TOTAL_CHUNK_BUDGET {
        return Rejected(PayloadTooLarge);
      }
      var key := canon(id);
      if key.None? {
        return Rejected(BadRequest);
      }
      if key.value in statusMap {
        return Rejected(Conflict);
      }
      var admission := new Admission(this, key.value);
      var acquired := TryAcquire(numChunks);
      if !acquired {
        admission.Drop();
        return Rejected(ServiceUnavailable);
      }
      PassesExactly(events, 0, declared);
      var streamed := StreamBody(events, declared, size, hasher, fails);
      if streamed.Aborted? || !channelOpen {
        budget := budget + numChunks;
        admission.Drop();
        return Rejected(if streamed.Aborted? then streamed.code else InternalError);
      }
      sent := sent + [ToPipeline.NewBlob(Coordinator.AdmittedBlob(id, streamed.leaves, numChunks, ticket))];
      admission.Commit();
      admission.Drop();
      return Created(id);
    }
  }

  /** A reservation in the status map that removes itself unless it was committed. */
  class Admission {
    const state: BridgeState
    const key: string
    var committed: bool

    constructor (state: BridgeState, key: string)
      requires key !in state.statusMap
      modifies state`statusMap
      ensures this.state == state && this.key == key && !committed
      ensures state.statusMap == Reserve(old(state.statusMap), key)
      ensures state.statusMap.Keys == old(state.statusMap).Keys + {key}
      ensures Release(state.statusMap, key) == old(state.statusMap)
    {
      this.state, this.key, this.committed := state, key, false;
      new;
      state.statusMap := Reserve(state.statusMap, key);
    }

    method Commit()
      modifies `committed
      ensures committed
    {
      committed := true;
    }

    /** The destructor. */
    method Drop()
      modifies state`statusMap
      ensures committed ==> state.statusMap == old(state.statusMap)
      ensures !committed ==> state.statusMap.Keys == old(state.statusMap).Keys - {key}
      ensures forall k | k in state.statusMap :: state.statusMap[k] == old(state.statusMap)[k]
      // dropped uncommitted, it undoes its own reservation and nothing else that happened since
      ensures !committed ==>
                forall m, events | key !in m && NotTheirs(events, key) && key !in AfterAll(m, events)
                                   && old(state.statusMap) == AfterAll(Reserve(m, key), events) ::
                  state.statusMap == AfterAll(m, events)
    {
      if !committed {
        state.statusMap := state.statusMap - {key};
        forall m, events | key !in m && NotTheirs(events, key) && key !in AfterAll(m, events)
                           && old(state.statusMap) == AfterAll(Reserve(m, key), events)
          ensures state.statusMap == AfterAll(m, events)
        {
          RollbackIsInvisibleExactly(m, key, events);
        }
      }
    }
  }
}
