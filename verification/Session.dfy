/** A request/reply session over one duplex stream, one byte at a time.

    The requester writes `request` and then reads until `judge` has seen enough of the
    reply; the responder reads until `react` has seen enough of the request, writes its
    reply and closes. Both directions buffer at most `window` bytes and the link may be
    cut at any moment. The push and pull protocols are two instances. */
module Session {
  import opened Prelude

  /** What the responder does on the request bytes read so far. */
  datatype Reaction = Hold | Reply(bytes: Bytes)

  /** What the requester makes of the reply bytes read so far. */
  datatype Judgement<R> = More | Final(result: R)

  datatype Protocol<!R> = Protocol(
    request: Bytes,
    react: Bytes -> Reaction,
    judge: Bytes -> Judgement<R>,
    window: nat)

  datatype Outcome<R> = Working | Finished(result: R) | Lost

  datatype State<R> = State(
    written: nat,       // request bytes put on the wire
    read: nat,          // ... and taken off it by the responder
    replied: nat,       // reply bytes put on the wire
    seen: nat,          // ... and taken off it by the requester
    gone: bool,         // the responder closed or dropped its end
    cut: bool,          // the link is broken
    outcome: Outcome<R>)

  datatype Action =
    | WriteRequest | ReadReply | Conclude | GiveUp      // requester
    | ReadRequest | WriteReply | Close | Abort          // responder
    | Cut                                               // the network

  function Start<R>(): State<R> {
    State(0, 0, 0, 0, false, false, Working)
  }

  ghost function Answer<R>(p: Protocol<R>, s: State<R>): Reaction
    requires s.read <= |p.request|
  {
    p.react(p.request[..s.read])
  }

  ghost function ReplyBytes<R>(p: Protocol<R>, s: State<R>): Bytes
    requires s.read <= |p.request|
  {
    match Answer(p, s) case Reply(b) => b case Hold => []
  }

  ghost predicate Bounded<R>(p: Protocol<R>, s: State<R>) {
    && s.read <= s.written <= |p.request|
    && s.seen <= s.replied <= |ReplyBytes(p, s)|
  }

  ghost predicate Can<R>(p: Protocol<R>, s: State<R>, a: Action) {
    && Bounded(p, s)
    && match a
       case WriteRequest => s.outcome.Working? && !s.cut && !s.gone
                            && s.written < |p.request| && s.written - s.read < p.window
       case ReadReply => s.outcome.Working? && s.written == |p.request| && s.seen < s.replied
                         && p.judge(ReplyBytes(p, s)[..s.seen]).More?
       case Conclude => s.outcome.Working? && s.written == |p.request|
                        && p.judge(ReplyBytes(p, s)[..s.seen]).Final?
       // a failed write, or the end of the stream in the middle of the reply
       case GiveUp => s.outcome.Working?
                      && (s.cut || (s.gone && (s.written < |p.request|
                                               || (s.seen == s.replied
                                                   && p.judge(ReplyBytes(p, s)[..s.seen]).More?))))
       case ReadRequest => !s.gone && s.read < s.written && Answer(p, s).Hold?
       case WriteReply => !s.gone && !s.cut && s.replied < |ReplyBytes(p, s)|
                          && s.replied - s.seen < p.window
       case Close => !s.gone && Answer(p, s).Reply? && s.replied == |ReplyBytes(p, s)|
       case Abort => !s.gone && (s.cut || !s.outcome.Working?)
       case Cut => !s.cut
  }

  ghost function Do<R>(p: Protocol<R>, s: State<R>, a: Action): State<R>
    requires Can(p, s, a)
  {
    match a
    case WriteRequest => s.(written := s.written + 1)
    case ReadReply => s.(seen := s.seen + 1)
    case Conclude => s.(outcome := Finished(p.judge(ReplyBytes(p, s)[..s.seen]).result))
    case GiveUp => s.(outcome := Lost)
    case ReadRequest => s.(read := s.read + 1)
    case WriteReply => s.(replied := s.replied + 1)
    case Close => s.(gone := true)
    case Abort => s.(gone := true)
    case Cut => s.(cut := true)
  }

  /** The state after a list of actions, if each was possible in its turn. */
  ghost function Play<R>(p: Protocol<R>, actions: seq<Action>): Option<State<R>> {
    if actions == [] then Some(Start()) else
    var n := |actions| - 1;
    match Play(p, actions[..n])
    case None => None
    case Some(s) => if Can(p, s, actions[n]) then Some(Do(p, s, actions[n])) else None
  }

  ghost predicate Reachable<R>(p: Protocol<R>, s: State<R>) {
    exists actions :: Play(p, actions) == Some(s)
  }

  /** What holds at every moment of every session. */
  ghost predicate Sound<R>(p: Protocol<R>, s: State<R>) {
    && Bounded(p, s)
    // the responder stops reading as soon as it can answer
    && (forall k | 0 <= k < s.read :: p.react(p.request[..k]).Hold?)
    && (forall k | 0 <= k < s.seen :: p.judge(ReplyBytes(p, s)[..k]).More?)
    && (s.seen > 0 ==> s.written == |p.request|)
    // a verdict comes from reply bytes the responder really wrote
    && (s.outcome.Finished? ==> s.written == |p.request|
                                && p.judge(ReplyBytes(p, s)[..s.seen]) == Final(s.outcome.result))
    // without a cut the responder leaves only after answering in full or after the verdict,
    // and the requester gives up only on a closed stream
    && (!s.cut && s.gone && s.outcome.Working? ==> Answered(p, s))
    && (!s.cut && s.outcome.Lost? ==>
          s.gone && Answered(p, s)
          && (s.written < |p.request| || p.judge(ReplyBytes(p, s)[..s.seen]).More?))
  }

  ghost predicate Answered<R>(p: Protocol<R>, s: State<R>)
    requires s.read <= |p.request|
  {
    Answer(p, s).Reply? && s.replied == |ReplyBytes(p, s)|
  }

  /** The requester of an uncut, abandoned session read everything there was to read. */
  ghost predicate Drained<R>(p: Protocol<R>, s: State<R>) {
    !s.cut && s.outcome.Lost? && s.written == |p.request| ==> s.seen == s.replied
  }

  lemma StepSound<R>(p: Protocol<R>, s: State<R>, a: Action)
    requires Sound(p, s) && Drained(p, s) && Can(p, s, a)
    ensures Sound(p, Do(p, s, a)) && Drained(p, Do(p, s, a))
  {
    var t := Do(p, s, a);
    if a.ReadRequest? {
      assert s.replied == 0;
    } else {
      assert ReplyBytes(p, t) == ReplyBytes(p, s);
    }
  }

  lemma {:induction false} AlwaysSound<R>(p: Protocol<R>, actions: seq<Action>)
    requires Play(p, actions).Some?
    ensures Sound(p, Play(p, actions).value) && Drained(p, Play(p, actions).value)
  {
    if actions != [] {
      var n := |actions| - 1;
      AlwaysSound(p, actions[..n]);
      StepSound(p, Play(p, actions[..n]).value, actions[n]);
    }
  }

  lemma ReachableSound<R>(p: Protocol<R>, s: State<R>)
    requires Reachable(p, s)
    ensures Sound(p, s) && Drained(p, s)
  {
    var actions :| Play(p, actions) == Some(s);
    AlwaysSound(p, actions);
  }

  /** What a protocol owes its peers: the whole request draws an answer, an answer drawn
      by less than the whole request is empty (the responder just drops the stream), and
      something fits on the wire. */
  ghost predicate WellFormed<R>(p: Protocol<R>) {
    && p.window > 0
    && p.react(p.request).Reply?
    && (forall k | 0 <= k < |p.request| ::
          p.react(p.request[..k]).Hold? || p.react(p.request[..k]) == Reply([]))
  }

  ghost predicate Over<R>(s: State<R>) {
    !s.outcome.Working? && s.gone
  }

  ghost predicate RequesterWaits<R>(p: Protocol<R>, s: State<R>) {
    forall a | a in {WriteRequest, ReadReply, Conclude, GiveUp} :: !Can(p, s, a)
  }

  ghost predicate ResponderWaits<R>(p: Protocol<R>, s: State<R>) {
    forall a | a in {ReadRequest, WriteReply, Close, Abort} :: !Can(p, s, a)
  }

  /** The two sides never wait for each other: some side can move until both are through. */
  lemma NeverBothWait<R>(p: Protocol<R>, s: State<R>)
    requires WellFormed(p) && Reachable(p, s) && !Over(s)
    ensures !(RequesterWaits(p, s) && ResponderWaits(p, s))
  {
    ReachableSound(p, s);
    assert p.request[..|p.request|] == p.request;
    if s.cut {
      assert Can(p, s, GiveUp) || Can(p, s, Abort);
    } else if !s.outcome.Working? {
      assert Can(p, s, Abort);
    } else if s.gone {
      assert Can(p, s, GiveUp) || Can(p, s, ReadReply) || Can(p, s, Conclude);
    } else if Answer(p, s).Hold? {
      assert Can(p, s, ReadRequest) || Can(p, s, WriteRequest);
    } else if s.replied == |ReplyBytes(p, s)| {
      assert Can(p, s, Close);
    } else {
      assert s.read == |p.request|;
      assert Can(p, s, WriteReply) || Can(p, s, ReadReply) || Can(p, s, Conclude);
    }
  }

  /** How much of the session is still ahead, most significant part first. */
  ghost function Ahead<R>(p: Protocol<R>, s: State<R>): (nat, nat)
    requires Bounded(p, s)
  {
    (2 * |p.request| - s.written - s.read,
     2 * |ReplyBytes(p, s)| - s.replied - s.seen
     + (if s.gone then 0 else 1) + (if s.outcome.Working? then 1 else 0) + (if s.cut then 0 else 1))
  }

  /** Every action uses some of it up, so no session goes on for ever. */
  lemma EveryActionCounts<R>(p: Protocol<R>, s: State<R>, a: Action)
    requires Sound(p, s) && Drained(p, s) && Can(p, s, a)
    ensures Sound(p, Do(p, s, a))
    ensures var (m, k) := Ahead(p, s); var (m', k') := Ahead(p, Do(p, s, a));
            m' < m || (m' == m && k' < k)
  {
    StepSound(p, s, a);
    var t := Do(p, s, a);
    if a.ReadRequest? {
      assert s.replied == 0;
    } else {
      assert ReplyBytes(p, t) == ReplyBytes(p, s);
    }
  }

  /** A session that was never cut and is over has read its whole request and its whole
      reply as far as either matters: the outcome is a function of the protocol alone. */
  lemma UncutOutcome<R>(p: Protocol<R>, s: State<R>, reply: Bytes, k: nat, result: R)
    requires WellFormed(p) && Reachable(p, s) && Over(s) && !s.cut
    requires forall j | 0 <= j < |p.request| :: p.react(p.request[..j]).Hold?
    requires p.react(p.request) == Reply(reply)
    requires k <= |reply| && p.judge(reply[..k]) == Final(result)
    requires forall j | 0 <= j < k :: p.judge(reply[..j]).More?
    ensures s.outcome == Finished(result)
  {
    ReachableSound(p, s);
    assert p.request[..|p.request|] == p.request;
    assert reply[..|reply|] == reply;
    if s.outcome.Lost? {
      assert false;
    } else if s.read < |p.request| {
      assert ReplyBytes(p, s) == [];
      assert s.seen == 0;
      assert p.judge([]) == Final(s.outcome.result);
      assert reply[..0] == [];
      assert k == 0;
    } else {
      assert s.seen == k;
    }
  }

  /** In a session that is not over, some side takes it forward. */
  lemma SomeMove<R>(p: Protocol<R>, s: State<R>) returns (a: Action)
    requires WellFormed(p) && Reachable(p, s) && !Over(s)
    ensures a != Cut && Can(p, s, a)
  {
    NeverBothWait(p, s);
    a :| a != Cut && Can(p, s, a);
  }

  lemma PlayOn<R>(p: Protocol<R>, actions: seq<Action>) returns (more: seq<Action>)
    requires WellFormed(p) && Play(p, actions).Some? && !Over(Play(p, actions).value)
    ensures actions <= more && Play(p, more).Some?
    ensures var s, t := Play(p, actions).value, Play(p, more).value;
            && Sound(p, s) && Sound(p, t) && t.cut == s.cut
            && var (m, k) := Ahead(p, s); var (m', k') := Ahead(p, t);
               m' < m || (m' == m && k' < k)
  {
    var s := Play(p, actions).value;
    AlwaysSound(p, actions);
    assert Reachable(p, s);
    var a := SomeMove(p, s);
    EveryActionCounts(p, s, a);
    assert (actions + [a])[..|actions|] == actions;
    more := actions + [a];
  }

  /** Left alone, every session comes to its end: some continuation without a cut is over. */
  lemma {:induction false} CanFinish<R>(p: Protocol<R>, actions: seq<Action>) returns (end: seq<Action>)
    requires WellFormed(p) && Play(p, actions).Some?
    ensures actions <= end && Play(p, end).Some?
    ensures Over(Play(p, end).value) && Play(p, end).value.cut == Play(p, actions).value.cut
    decreases (AlwaysSound(p, actions); Ahead(p, Play(p, actions).value).0),
              (AlwaysSound(p, actions); Ahead(p, Play(p, actions).value).1)
  {
    end := actions;
    if !Over(Play(p, actions).value) {
      var more := PlayOn(p, actions);
      end := CanFinish(p, more);
    }
  }
}
