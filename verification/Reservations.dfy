/** The status map seen from both tasks: reservations are exclusive and roll back cleanly,
    and a blob's entry stays pending until its own update arrives, if it ever does. */
module Reservations {
  import opened Prelude
  import opened Node
  import opened Custody
  import opened Order
  import Bridge

  /** If `id` is accepted, its printed form is accepted too and prints as itself. */
  predicate PrintsStably(cfg: Config, id: string) {
    cfg.canon(id).Some? ==> cfg.canon(cfg.canon(id).value) == cfg.canon(id)
  }

  /** The ids a step brings in print stably. */
  predicate StableStep(cfg: Config, step: Step) {
    match step
    case Arrive(id, _) => PrintsStably(cfg, id)
    case Inquire(id) => PrintsStably(cfg, id)
    case _ => true
  }

  /** The ids that occur in a run print stably. Nothing is asked of any other id. */
  ghost predicate StableRun(cfg: Config, steps: seq<Step>) {
    forall k | 0 <= k < |steps| :: StableStep(cfg, steps[k])
  }

  /** Still owner of its entry, whether the upload goes on, unwinds, or went through. */
  predicate OwnsEntry(q: Request) {
    !q.phase.Failed?
  }

  /** Owners have an entry each, and no two the same. */
  ghost predicate OwnersOk(n: Node) {
    && (forall r | 0 <= r < |n.requests| && OwnsEntry(n.requests[r]) :: n.requests[r].key in n.statusMap)
    && (forall r, r' | 0 <= r < r' < |n.requests| && OwnsEntry(n.requests[r]) && OwnsEntry(n.requests[r']) ::
          n.requests[r].key != n.requests[r'].key)
  }

  ghost predicate EntriesOk(cfg: Config, n: Node) {
    OwnersOk(n) && forall k | k in n.statusMap :: cfg.canon(k) == Some(k)
  }

  /** The ids under which finalized blobs were reported. */
  ghost predicate Reported(n: Node, id: string) {
    exists t :: t in n.log.done && t < |n.requests| && n.requests[t].rawId == id
  }

  ghost predicate HistoriesOk(n: Node) {
    forall k | k in n.statusMap ::
      n.statusMap[k] == if Reported(n, k) then [Bridge.Pending, Bridge.Finalized] else [Bridge.Pending]
  }

  /** Updates on their way to the bridge carry the id their request came with. */
  ghost predicate UpdatesOk(n: Node) {
    forall k | 0 <= k < |n.toBridge| ::
      n.toBridge[k].ticket < |n.requests| && n.toBridge[k].id == n.requests[n.toBridge[k].ticket].rawId
  }

  ghost predicate KeysOk(cfg: Config, n: Node) {
    forall r | 0 <= r < |n.requests| :: cfg.canon(n.requests[r].rawId) == Some(n.requests[r].key)
  }

  /** Recorded blobs, and the next one to be recorded, are blobs that were handed over. */
  ghost predicate DoneOk(n: Node) {
    && (forall t | t in n.log.done :: t < |n.requests| && HandedOver(n.requests[t]))
    && (n.toBridge != [] ==>
          var t := n.toBridge[0].ticket;
          t < |n.requests| && HandedOver(n.requests[t]) && t !in n.log.done)
  }

  /** The part of the state that the status map depends on. */
  ghost predicate BooksOk(cfg: Config, n: Node) {
    KeysOk(cfg, n) && DoneOk(n) && EntriesOk(cfg, n) && UpdatesOk(n) && HistoriesOk(n)
  }

  ghost predicate Coherent(cfg: Config, n: Node)
    requires ValidConfig(cfg)
  {
    RequestsOk(cfg, n) && BlobsOk(cfg, n) && TrailOk(n) && EntriesOk(cfg, n) && HistoriesOk(n) && UpdatesOk(n)
  }

  lemma SentIsHandedOver(n: Node, k: nat)
    requires TrailOk(n) && k < |n.log.sent|
    ensures n.log.sent[k] < |n.requests| && HandedOver(n.requests[n.log.sent[k]])
  {
    assert n.log.sent[k] in n.log.sent;
  }

  lemma TrailGivesDone(n: Node)
    requires TrailOk(n)
    ensures DoneOk(n)
  {
    FinalizedInOrder(n);
    forall t | t in n.log.done ensures t < |n.requests| && HandedOver(n.requests[t]) {
      var k :| 0 <= k < |n.log.done| && n.log.done[k] == t;
      SentIsHandedOver(n, k);
    }
    if n.toBridge != [] {
      SentIsHandedOver(n, |n.log.done|);
      forall k | 0 <= k < |n.log.done| ensures n.log.done[k] != n.toBridge[0].ticket {
        assert n.log.sent[k] == n.log.done[k];
      }
    }
  }

  lemma CoherentBooks(cfg: Config, n: Node)
    requires ValidConfig(cfg) && Coherent(cfg, n)
    ensures BooksOk(cfg, n)
  {
    TrailGivesDone(n);
    forall r | 0 <= r < |n.requests| ensures cfg.canon(n.requests[r].rawId) == Some(n.requests[r].key) {
      assert RequestOk(cfg, n.requests[r]);
    }
  }

  /** A reported id points to the one request that came with it. */
  lemma ReportedRequest(cfg: Config, n: Node, id: string) returns (t: nat)
    requires BooksOk(cfg, n) && Reported(n, id)
    ensures t in n.log.done && t < |n.requests| && HandedOver(n.requests[t])
    ensures n.requests[t].rawId == id && cfg.canon(id) == Some(n.requests[t].key)
    ensures n.requests[t].key in n.statusMap
  {
    t :| t in n.log.done && t < |n.requests| && n.requests[t].rawId == id;
  }

  /** An id without an entry was never reported, if it is one that could have an entry. */
  lemma FreshWasNotReported(cfg: Config, n: Node, key: string)
    requires BooksOk(cfg, n) && cfg.canon(key) == Some(key) && key !in n.statusMap
    ensures !Reported(n, key)
  {
    if Reported(n, key) {
      var t := ReportedRequest(cfg, n, key);
    }
  }

  /** The entry of a live request was reported on only through that request. */
  lemma ReportedOwner(cfg: Config, n: Node, r: nat)
    requires BooksOk(cfg, n)
    requires r < |n.requests| && OwnsEntry(n.requests[r]) && Reported(n, n.requests[r].key)
    ensures r in n.log.done && HandedOver(n.requests[r]) && n.requests[r].rawId == n.requests[r].key
  {
    var t := ReportedRequest(cfg, n, n.requests[r].key);
    assert n.requests[r].key in n.statusMap;
    assert n.requests[t].key == n.requests[r].key;
    assert t == r;
  }

  /** The id of the next update was not reported before. */
  lemma FirstReport(cfg: Config, n: Node)
    requires BooksOk(cfg, n) && n.toBridge != []
    ensures !Reported(n, n.toBridge[0].id)
  {
    if Reported(n, n.toBridge[0].id) {
      var t := ReportedRequest(cfg, n, n.toBridge[0].id);
    }
  }

  lemma UpdatesStep(cfg: Config, n: Node, step: Step)
    requires ValidConfig(cfg) && BlobsOk(cfg, n) && UpdatesOk(n) && Enabled(cfg, n, step)
    ensures UpdatesOk(Apply(cfg, n, step))
  {
    if step.Update? {
      var t := n.tasks[step.i];
      UpdateKeepsPipe(cfg, n, n.pipe, t.hash, t.phase.status, n.now);
      SettledUpdate(cfg, n, step.i);
    } else {
      RequestsKeepNames(cfg, n, step);
    }
  }

  lemma SettledUpdate(cfg: Config, n: Node, i: nat)
    requires ValidConfig(cfg) && UpdatesOk(n) && IsNext(n, i)
    requires EffectOf(n, i).stored.Some? ==> LocalOk(cfg, n, EffectOf(n, i).stored.value)
    ensures UpdatesOk(Settle(n, i))
  {
  }

  /** Requests are never removed or renamed. */
  ghost predicate SameNames(n: Node, m: Node) {
    && |n.requests| <= |m.requests|
    && forall r | 0 <= r < |n.requests| ::
         m.requests[r].rawId == n.requests[r].rawId && m.requests[r].key == n.requests[r].key
  }

  lemma RequestsKeepNames(cfg: Config, n: Node, step: Step)
    requires ValidConfig(cfg) && Enabled(cfg, n, step)
    ensures SameNames(n, Apply(cfg, n, step))
  {
  }

  lemma ArrivalKeepsOwners(cfg: Config, n: Node, id: string, declared: nat)
    requires OwnersOk(n) && cfg.canon(id).Some? && cfg.canon(id).value !in n.statusMap
    ensures OwnersOk(DoArrive(cfg, n, id, declared))
  {
  }

  lemma PhaseKeepsOwners(n: Node, m: Node, r: nat)
    requires OwnersOk(n) && r < |n.requests| == |m.requests|
    requires m.requests == n.requests[r := m.requests[r]] && m.requests[r].key == n.requests[r].key
    requires OwnsEntry(n.requests[r])
    requires m.statusMap == if OwnsEntry(m.requests[r]) then n.statusMap else n.statusMap - {n.requests[r].key}
    ensures OwnersOk(m)
  {
  }

  lemma MoreEntriesKeepOwners(n: Node, m: Node)
    requires OwnersOk(n) && m.requests == n.requests && n.statusMap.Keys <= m.statusMap.Keys
    ensures OwnersOk(m)
  {
  }

  lemma RequestKeepsOwners(cfg: Config, n: Node, step: Step)
    requires ValidConfig(cfg) && OwnersOk(n) && Enabled(cfg, n, step) && MovesRequest(step)
    ensures OwnersOk(Apply(cfg, n, step))
  {
    match step
    case Acquire(r) => PhaseKeepsOwners(n, DoAcquire(cfg, n, r), r);
    case Frame(r, data) => PhaseKeepsOwners(n, DoFrame(cfg, n, r, data), r);
    case Send(r) => PhaseKeepsOwners(n, DoSend(cfg, n, r), r);
    case Commit(r) => PhaseKeepsOwners(n, SetPhase(n, r, Committed), r);
    case ReturnPermits(r) => PhaseKeepsOwners(n, DoReturnPermits(n, r), r);
    case DropReservation(r) => PhaseKeepsOwners(n, DoDropReservation(n, r), r);
  }

  /** All other steps leave the requests alone and remove no entry. */
  lemma EntriesElsewhere(cfg: Config, n: Node, step: Step)
    requires ValidConfig(cfg) && Enabled(cfg, n, step) && !MovesRequest(step) && !step.Arrive?
    ensures Apply(cfg, n, step).requests == n.requests && n.statusMap.Keys <= Apply(cfg, n, step).statusMap.Keys
  {
  }

  lemma OwnersStep(cfg: Config, n: Node, step: Step)
    requires ValidConfig(cfg) && OwnersOk(n) && Enabled(cfg, n, step)
    ensures OwnersOk(Apply(cfg, n, step))
  {
    if step.Arrive? {
      ArrivalKeepsOwners(cfg, n, step.id, step.declared);
    } else if MovesRequest(step) {
      RequestKeepsOwners(cfg, n, step);
    } else {
      EntriesElsewhere(cfg, n, step);
      MoreEntriesKeepOwners(n, Apply(cfg, n, step));
    }
  }

  lemma EntriesStep(cfg: Config, n: Node, step: Step)
    requires ValidConfig(cfg) && StableStep(cfg, step) && EntriesOk(cfg, n) && Enabled(cfg, n, step)
    ensures EntriesOk(cfg, Apply(cfg, n, step))
  {
    OwnersStep(cfg, n, step);
  }

  /** What was reported stays reported. */
  lemma ReportedCarriesOver(n: Node, m: Node, id: string)
    requires DoneOk(n) && SameNames(n, m) && m.log.done == n.log.done
    ensures Reported(m, id) <==> Reported(n, id)
  {
    if Reported(m, id) {
      var t :| t in m.log.done && t < |m.requests| && m.requests[t].rawId == id;
      assert n.requests[t].rawId == id;
    }
    if Reported(n, id) {
      var t :| t in n.log.done && t < |n.requests| && n.requests[t].rawId == id;
      assert m.requests[t].rawId == id;
    }
  }

  lemma RecordingReports(n: Node, k: string)
    requires UpdatesOk(n) && n.toBridge != []
    ensures Reported(DoReceiveStatus(n), k) <==> Reported(n, k) || k == n.toBridge[0].id
  {
    var m := DoReceiveStatus(n);
    var t := n.toBridge[0].ticket;
    if k == n.toBridge[0].id {
      assert t in m.log.done && m.requests[t].rawId == k;
    }
    if Reported(n, k) {
      var t' :| t' in n.log.done && t' < |n.requests| && n.requests[t'].rawId == k;
      assert t' in m.log.done;
    }
    if Reported(m, k) {
      var t' :| t' in m.log.done && t' < |m.requests| && m.requests[t'].rawId == k;
      assert t' in n.log.done || t' == t;
    }
  }

  lemma RecordingKeepsHistories(cfg: Config, n: Node)
    requires BooksOk(cfg, n) && n.toBridge != []
    ensures HistoriesOk(DoReceiveStatus(n))
  {
    var m := DoReceiveStatus(n);
    FirstReport(cfg, n);
    forall k | k in m.statusMap
      ensures m.statusMap[k] == if Reported(m, k) then [Bridge.Pending, Bridge.Finalized] else [Bridge.Pending]
    {
      RecordingReports(n, k);
    }
  }

  lemma HistoriesStep(cfg: Config, n: Node, step: Step)
    requires ValidConfig(cfg) && StableStep(cfg, step) && BooksOk(cfg, n) && Enabled(cfg, n, step)
    ensures HistoriesOk(Apply(cfg, n, step))
  {
    if step.ReceiveStatus? {
      RecordingKeepsHistories(cfg, n);
    } else {
      RequestsKeepNames(cfg, n, step);
      EntriesStep(cfg, n, step);
      EntriesComeFresh(cfg, n, step);
      FreshEntriesKeepHistories(cfg, n, Apply(cfg, n, step));
    }
  }

  /** But for updates, entries appear as pending, stay, or go. */
  lemma EntriesComeFresh(cfg: Config, n: Node, step: Step)
    requires ValidConfig(cfg) && Enabled(cfg, n, step) && !step.ReceiveStatus?
    ensures var m := Apply(cfg, n, step);
            && m.log.done == n.log.done
            && forall k | k in m.statusMap ::
                 m.statusMap[k] == if k in n.statusMap then n.statusMap[k] else [Bridge.Pending]
  {
  }

  lemma FreshEntriesKeepHistories(cfg: Config, n: Node, m: Node)
    requires BooksOk(cfg, n) && EntriesOk(cfg, m) && SameNames(n, m) && m.log.done == n.log.done
    requires forall k | k in m.statusMap ::
               m.statusMap[k] == if k in n.statusMap then n.statusMap[k] else [Bridge.Pending]
    ensures HistoriesOk(m)
  {
    forall k | k in m.statusMap
      ensures m.statusMap[k] == if Reported(m, k) then [Bridge.Pending, Bridge.Finalized] else [Bridge.Pending]
    {
      ReportedCarriesOver(n, m, k);
      if k !in n.statusMap {
        FreshWasNotReported(cfg, n, k);
      }
    }
  }

  lemma CoherentStep(cfg: Config, n: Node, step: Step)
    requires ValidConfig(cfg) && StableStep(cfg, step) && Coherent(cfg, n) && Enabled(cfg, n, step)
    ensures Coherent(cfg, Apply(cfg, n, step))
  {
    CoherentBooks(cfg, n);
    RequestsStep(cfg, n, step);
    BlobsStep(cfg, n, step);
    TrailStep(cfg, n, step);
    EntriesStep(cfg, n, step);
    HistoriesStep(cfg, n, step);
    UpdatesStep(cfg, n, step);
  }

  // ---------------------------------------------------------------- what follows

  /** A Finalized update finds its entry exactly when the id it was uploaded under prints
      back to itself; the entry then still says only "pending". Otherwise it is dropped as
      unsolicited. */
  lemma SolicitedExactly(cfg: Config, n: Node)
    requires BooksOk(cfg, n) && n.toBridge != []
    ensures var id := n.toBridge[0].id;
            && (id in n.statusMap <==> cfg.canon(id) == Some(id))
            && (id in n.statusMap ==> n.statusMap[id] == [Bridge.Pending])
            && DoReceiveStatus(n).statusMap ==
               if cfg.canon(id) == Some(id) then n.statusMap[id := [Bridge.Pending, Bridge.Finalized]]
               else n.statusMap
  {
    var id := n.toBridge[0].id;
    var q := n.requests[n.toBridge[0].ticket];
    assert cfg.canon(id) == Some(q.key) && q.key in n.statusMap;
    FirstReport(cfg, n);
    assert [Bridge.Pending] + [Bridge.Finalized] == [Bridge.Pending, Bridge.Finalized];
  }

  /** For a blob that was handed over: its entry is there, and says "finalized", once, if
      and only if its own update was handled and its id was canonical. */
  lemma FinalizedExactly(cfg: Config, n: Node, t: nat)
    requires BooksOk(cfg, n) && t < |n.requests| && HandedOver(n.requests[t])
    ensures n.requests[t].key in n.statusMap
    ensures n.statusMap[n.requests[t].key] ==
            if t in n.log.done && n.requests[t].rawId == n.requests[t].key
            then [Bridge.Pending, Bridge.Finalized] else [Bridge.Pending]
  {
    var q := n.requests[t];
    if Reported(n, q.key) {
      ReportedOwner(cfg, n, t);
    }
    assert t in n.log.done && q.rawId == q.key ==> Reported(n, q.key);
  }

  /** While an upload holds an uncommitted reservation, its entry is shared with no other
      upload. Giving up takes that entry and leaves every other owner's as it is. */
  lemma RollbackSparesOthers(n: Node, r: nat)
    requires OwnersOk(n) && r < |n.requests| && OwnsEntry(n.requests[r])
    ensures n.requests[r].key in n.statusMap && n.requests[r].key !in DoDropReservation(n, r).statusMap
    ensures forall r' | 0 <= r' < |n.requests| && r' != r && OwnsEntry(n.requests[r']) ::
              var k := n.requests[r'].key;
              && k != n.requests[r].key
              && k in DoDropReservation(n, r).statusMap && DoDropReservation(n, r).statusMap[k] == n.statusMap[k]
  {
  }

  /** ... and that entry says only "pending". */
  lemma RollbackIsClean(cfg: Config, n: Node, r: nat)
    requires BooksOk(cfg, n)
    requires r < |n.requests| && OwnsEntry(n.requests[r]) && !HandedOver(n.requests[r])
    ensures n.requests[r].key in n.statusMap && n.statusMap[n.requests[r].key] == [Bridge.Pending]
  {
    if Reported(n, n.requests[r].key) {
      ReportedOwner(cfg, n, r);
    }
  }
}
