/** The push and pull exchanges of crates/peyk/src/blob_transfer.rs: each side as a method
    on its stream, the two sides composed as a session, and what an outcome is worth. */
module Transfer {
  import opened Prelude
  import opened Frames
  import Session

  const REASON_LIMIT := 4096

  // ---------------------------------------------------------------- push

  /** What the receiver makes of the bytes of a push so far. */
  datatype Intake = Waiting | Malformed | Mismatch(actual: Hash) | Verified(hash: Hash, data: Bytes)

  function Inspect(hasher: Hasher, maxLen: nat, input: Bytes): Intake {
    match Decode(input, HASH_LEN)
    case Truncated => Waiting
    case TooLong => Malformed
    case Frame(h, rest) =>
      if |h| != HASH_LEN then Malformed else
      match Decode(rest, maxLen)
      case Truncated => Waiting
      case TooLong => Malformed
      case Frame(data, _) =>
        if hasher(data) == h then Verified(h, data) else Mismatch(hasher(data))
  }

  function AsciiCode(c: char): byte {
    if c as int < 128 then c as int else '?' as int
  }

  function Ascii(s: string): Bytes {
    seq(|s|, i requires 0 <= i < |s| => AsciiCode(s[i]))
  }

  function HexDigit(n: nat): byte
    requires n < 16
  {
    if n < 10 then '0' as int + n else 'a' as int + n - 10
  }

  function Hex(b: Bytes): (text: Bytes)
    ensures |text| == 2 * |b|
  {
    if b == [] then [] else [HexDigit(b[0] as int / 16), HexDigit(b[0] as int % 16)] + Hex(b[1..])
  }

  function Reason(actual: Hash): (text: Bytes)
    ensures |text| <= REASON_LIMIT
  {
    Ascii("integrity check failed (got ") + Hex(actual) + Ascii(")")
  }

  const ACCEPT: Bytes := [1]

  function Refuse(actual: Hash): Bytes {
    [0] + Encode(Reason(actual))
  }

  function PushReply(i: Intake): Session.Reaction {
    match i
    case Waiting => Session.Hold
    case Malformed => Session.Reply([])
    case Mismatch(actual) => Session.Reply(Refuse(actual))
    case Verified(_, _) => Session.Reply(ACCEPT)
  }

  datatype PushResult = Accepted | Refused(reason: Bytes) | Garbled

  function JudgePush(reply: Bytes): Session.Judgement<PushResult> {
    if reply == [] then Session.More
    else if reply[0] == 1 then Session.Final(Accepted)
    else match Decode(reply[1..], REASON_LIMIT)
         case Truncated => Session.More
         case TooLong => Session.Final(Garbled)
         case Frame(reason, _) => Session.Final(Refused(reason))
  }

  function PushRequest(hash: Hash, data: Bytes): Bytes
    requires Framable(data)
  {
    Encode(hash) + Encode(data)
  }

  function Push(hasher: Hasher, maxLen: nat, window: nat, hash: Hash, data: Bytes): Session.Protocol<PushResult>
    requires Framable(data)
  {
    Session.Protocol(PushRequest(hash, data), input => PushReply(Inspect(hasher, maxLen, input)),
                     JudgePush, window)
  }

  /** The header of a hash: its length, 32. */
  const HASH_HEADER: Bytes := [0, 0, 0, 32]

  lemma HashFrame(hash: Hash)
    ensures Encode(hash) == HASH_HEADER + hash
  {
  }

  /** What the receiver answers to any well-formed push, whoever sent it and whatever follows:
      one byte, 1, if the hash is right, and 0 with the reason if it is wrong. Data that is too
      long is not answered. */
  lemma PushAnswered(hasher: Hasher, maxLen: nat, hash: Hash, data: Bytes, rest: Bytes)
    requires Framable(data)
    ensures PushReply(Inspect(hasher, maxLen, HASH_HEADER + hash + Encode(data) + rest)) ==
            if |data| > maxLen then Session.Reply([])
            else if hasher(data) == hash then Session.Reply([1])
            else Session.Reply([0] + Encode(Reason(hasher(data))))
  {
    HashFrame(hash);
    var input := HASH_HEADER + hash + Encode(data) + rest;
    assert input == Encode(hash) + (Encode(data) + rest);
    RoundTrip(hash, Encode(data) + rest, HASH_LEN);
    if |data| > maxLen {
      Oversized(data, rest, maxLen);
    } else {
      RoundTrip(data, rest, maxLen);
    }
  }

  /** How the sender reads a reply: the byte 1 accepts; after any other byte comes a reason, of
      at most 4096 bytes. */
  lemma PushReplyRead(tag: byte, reason: Bytes, rest: Bytes)
    requires Framable(reason)
    ensures JudgePush([]) == Session.More && JudgePush([1] + rest) == Session.Final(Accepted)
    ensures tag != 1 ==>
              JudgePush([tag] + Encode(reason) + rest) ==
              Session.Final(if |reason| <= 4096 then Refused(reason) else Garbled)
  {
    var reply := [tag] + Encode(reason) + rest;
    assert reply[1..] == Encode(reason) + rest;
    if |reason| <= 4096 {
      RoundTrip(reason, rest, REASON_LIMIT);
    } else {
      Oversized(reason, rest, REASON_LIMIT);
    }
  }

  /** The value of a lower-case hexadecimal digit. */
  function HexValue(c: int): int {
    if c <= '9' as int then c - '0' as int else c - 'a' as int + 10
  }

  lemma {:induction false} HexSpells(b: Bytes, k: nat)
    requires k < |b|
    ensures b[k] as int == 16 * HexValue(Hex(b)[2 * k]) + HexValue(Hex(b)[2 * k + 1])
  {
    if k == 0 {
      assert b[0] as int == 16 * (b[0] as int / 16) + b[0] as int % 16;
    } else {
      HexSpells(b[1..], k - 1);
      assert Hex(b)[2..] == Hex(b[1..]);
    }
  }

  /** The reason names the hash the receiver found, byte by byte. */
  lemma ReasonSpellsHash(actual: Hash, k: nat)
    requires k < 32
    ensures |Reason(actual)| == 93
    ensures Reason(actual)[..28] == Ascii("integrity check failed (got ") && Reason(actual)[92..] == Ascii(")")
    ensures actual[k] as int == 16 * HexValue(Reason(actual)[28 + 2 * k]) + HexValue(Reason(actual)[29 + 2 * k])
  {
    HexSpells(actual, k);
    assert Reason(actual)[28..92] == Hex(actual);
    assert Reason(actual)[28 + 2 * k] == Reason(actual)[28..92][2 * k];
    assert Reason(actual)[29 + 2 * k] == Reason(actual)[28..92][2 * k + 1];
  }

  /** Only the whole request, cut nowhere, is ever verified, and then as the very hash and
      bytes that were sent. */
  lemma InspectPrefix(hasher: Hasher, maxLen: nat, hash: Hash, data: Bytes, k: nat)
    requires Framable(data) && k <= |PushRequest(hash, data)|
    ensures var i := Inspect(hasher, maxLen, PushRequest(hash, data)[..k]);
            if k < |PushRequest(hash, data)|
            then i.Waiting? || (i.Malformed? && |data| > maxLen)
            else i == if |data| > maxLen then Malformed
                      else if hasher(data) == hash then Verified(hash, data)
                      else Mismatch(hasher(data))
  {
    var request := PushRequest(hash, data);
    var input := request[..k];
    var first := |Encode(hash)|;
    if k < first {
      CutFrame(hash, Encode(data), k, HASH_LEN);
    } else {
      assert input == Encode(hash) + request[first..k];
      RoundTrip(hash, request[first..k], HASH_LEN);
      assert Encode(data) + [] == Encode(data);
      assert request[first..k] == (Encode(data) + [])[..k - first];
      if k < |request| {
        CutFrame(data, [], k - first, maxLen);
      } else if |data| > maxLen {
        Oversized(data, [], maxLen);
      } else {
        RoundTrip(data, [], maxLen);
      }
    }
  }

  lemma PushWellFormed(hasher: Hasher, maxLen: nat, window: nat, hash: Hash, data: Bytes)
    requires Framable(data) && window > 0
    ensures Session.WellFormed(Push(hasher, maxLen, window, hash, data))
  {
    var p := Push(hasher, maxLen, window, hash, data);
    forall k | 0 <= k < |p.request|
      ensures p.react(p.request[..k]).Hold? || p.react(p.request[..k]) == Session.Reply([])
    {
      InspectPrefix(hasher, maxLen, hash, data, k);
    }
    InspectPrefix(hasher, maxLen, hash, data, |p.request|);
    assert p.request[..|p.request|] == p.request;
  }

  /** Whatever the link does, an accepted push means that the receiver verified the very
      hash and bytes the sender sent. */
  lemma AcceptedMeansVerified(hasher: Hasher, maxLen: nat, window: nat, hash: Hash, data: Bytes,
                              s: Session.State<PushResult>)
    requires Framable(data)
    requires Session.Reachable(Push(hasher, maxLen, window, hash, data), s)
    requires s.outcome == Session.Finished(Accepted)
    ensures s.read <= |PushRequest(hash, data)|
    ensures Inspect(hasher, maxLen, PushRequest(hash, data)[..s.read]) == Verified(hash, data)
    ensures hasher(data) == hash && |data| <= maxLen
  {
    var p := Push(hasher, maxLen, window, hash, data);
    Session.ReachableSound(p, s);
    OnlyOneAccepts(Session.ReplyBytes(p, s), s.seen);
    OneMeansVerified(hasher, maxLen, hash, data, s.read);
  }

  lemma OnlyOneAccepts(reply: Bytes, k: nat)
    requires k <= |reply| && JudgePush(reply[..k]) == Session.Final(Accepted)
    ensures reply != [] && reply[0] == 1
  {
    assert reply[..k] != [];
    assert reply[..k][0] == reply[0];
  }

  lemma OneMeansVerified(hasher: Hasher, maxLen: nat, hash: Hash, data: Bytes, k: nat)
    requires Framable(data) && k <= |PushRequest(hash, data)|
    requires var answer := PushReply(Inspect(hasher, maxLen, PushRequest(hash, data)[..k]));
             answer.Reply? && answer.bytes != [] && answer.bytes[0] == 1
    ensures Inspect(hasher, maxLen, PushRequest(hash, data)[..k]) == Verified(hash, data)
    ensures hasher(data) == hash && |data| <= maxLen
  {
    InspectPrefix(hasher, maxLen, hash, data, k);
  }

  /** A hash that is not the data's never yields Ok, and its refusal fits the limit. */
  lemma WrongHashNeverAccepted(hasher: Hasher, maxLen: nat, window: nat, hash: Hash, data: Bytes,
                               s: Session.State<PushResult>)
    requires Framable(data) && hasher(data) != hash
    requires Session.Reachable(Push(hasher, maxLen, window, hash, data), s)
    ensures s.outcome.Finished? ==> s.outcome.result == Refused(Reason(hasher(data)))
    ensures |Reason(hasher(data))| <= REASON_LIMIT
  {
    var p := Push(hasher, maxLen, window, hash, data);
    Session.ReachableSound(p, s);
    if s.outcome.Finished? {
      ReplyToWrongHash(hasher, maxLen, hash, data, s.read);
      var reply := Session.ReplyBytes(p, s);
      if reply != [] {
        JudgeRefusal(hasher(data), s.seen);
      }
    }
  }

  /** All a receiver ever answers to a misnamed chunk: nothing, or the refusal. */
  lemma ReplyToWrongHash(hasher: Hasher, maxLen: nat, hash: Hash, data: Bytes, k: nat)
    requires Framable(data) && hasher(data) != hash && k <= |PushRequest(hash, data)|
    ensures PushReply(Inspect(hasher, maxLen, PushRequest(hash, data)[..k]))
            in {Session.Hold, Session.Reply([]), Session.Reply(Refuse(hasher(data)))}
  {
    InspectPrefix(hasher, maxLen, hash, data, k);
  }

  lemma JudgeRefusal(actual: Hash, k: nat)
    requires k <= |Refuse(actual)|
    ensures JudgePush(Refuse(actual)[..k]) ==
            if k < |Refuse(actual)| then Session.More else Session.Final(Refused(Reason(actual)))
  {
    var reply := Refuse(actual);
    var reason := Reason(actual);
    if k > 0 {
      assert Encode(reason) + [] == Encode(reason);
      assert reply[..k][1..] == (Encode(reason) + [])[..k - 1];
      if k < |reply| {
        CutFrame(reason, [], k - 1, REASON_LIMIT);
      } else {
        RoundTrip(reason, [], REASON_LIMIT);
      }
    }
  }

  /** Data that fits is answered only once all of it is there. */
  lemma FittingPushHolds(hasher: Hasher, maxLen: nat, window: nat, hash: Hash, data: Bytes)
    requires Framable(data) && |data| <= maxLen
    ensures var p := Push(hasher, maxLen, window, hash, data);
            && (forall k | 0 <= k < |p.request| :: p.react(p.request[..k]).Hold?)
            && p.react(p.request) == Session.Reply(if hasher(data) == hash then ACCEPT else Refuse(hasher(data)))
  {
    var p := Push(hasher, maxLen, window, hash, data);
    forall k | 0 <= k < |p.request| ensures p.react(p.request[..k]).Hold? {
      InspectPrefix(hasher, maxLen, hash, data, k);
    }
    InspectPrefix(hasher, maxLen, hash, data, |p.request|);
    assert p.request[..|p.request|] == p.request;
  }

  lemma UncutFits(hasher: Hasher, maxLen: nat, window: nat, hash: Hash, data: Bytes, s: Session.State<PushResult>)
    requires Framable(data) && window > 0 && |data| <= maxLen
    requires Session.Reachable(Push(hasher, maxLen, window, hash, data), s)
    requires Session.Over(s) && !s.cut
    ensures s.outcome == Session.Finished(if hasher(data) == hash then Accepted else Refused(Reason(hasher(data))))
  {
    var p := Push(hasher, maxLen, window, hash, data);
    PushWellFormed(hasher, maxLen, window, hash, data);
    FittingPushHolds(hasher, maxLen, window, hash, data);
    if hasher(data) == hash {
      Session.UncutOutcome(p, s, ACCEPT, 1, Accepted);
    } else {
      var reply := Refuse(hasher(data));
      forall k | 0 <= k <= |reply| ensures k < |reply| ==> p.judge(reply[..k]).More? {
        JudgeRefusal(hasher(data), k);
      }
      JudgeRefusal(hasher(data), |reply|);
      Session.UncutOutcome(p, s, reply, |reply|, Refused(Reason(hasher(data))));
    }
  }

  /** An uncut push that is over was accepted exactly when the data fits and has the hash;
      a misnamed one was refused with the receiver's reason. */
  lemma UncutPush(hasher: Hasher, maxLen: nat, window: nat, hash: Hash, data: Bytes,
                  s: Session.State<PushResult>)
    requires Framable(data) && window > 0
    requires Session.Reachable(Push(hasher, maxLen, window, hash, data), s)
    requires Session.Over(s) && !s.cut
    ensures s.outcome == Session.Finished(Accepted) <==> |data| <= maxLen && hasher(data) == hash
    ensures |data| <= maxLen && hasher(data) != hash ==>
              s.outcome == Session.Finished(Refused(Reason(hasher(data))))
  {
    if s.outcome == Session.Finished(Accepted) {
      AcceptedMeansVerified(hasher, maxLen, window, hash, data, s);
    }
    if |data| <= maxLen {
      UncutFits(hasher, maxLen, window, hash, data, s);
    }
  }

  /** No push ever hangs on an uncut link: sender and receiver never both wait, and from
      wherever it is, the session can be played to its end, where it is accepted exactly
      when the data fits and has the hash. */
  lemma PushCompletes(hasher: Hasher, maxLen: nat, window: nat, hash: Hash, data: Bytes,
                      actions: seq<Session.Action>) returns (end: seq<Session.Action>)
    requires Framable(data) && window > 0
    requires var now := Session.Play(Push(hasher, maxLen, window, hash, data), actions);
             now.Some? && !now.value.cut
    ensures var p := Push(hasher, maxLen, window, hash, data);
            var now := Session.Play(p, actions).value;
            Session.Over(now) || !(Session.RequesterWaits(p, now) && Session.ResponderWaits(p, now))
    ensures var last := Session.Play(Push(hasher, maxLen, window, hash, data), end);
            && actions <= end && last.Some? && Session.Over(last.value) && !last.value.cut
            && (last.value.outcome == Session.Finished(Accepted) <==> |data| <= maxLen && hasher(data) == hash)
  {
    var p := Push(hasher, maxLen, window, hash, data);
    PushWellFormed(hasher, maxLen, window, hash, data);
    var now := Session.Play(p, actions).value;
    assert Session.Reachable(p, now);
    if !Session.Over(now) {
      Session.NeverBothWait(p, now);
    }
    end := Session.CanFinish(p, actions);
    assert Session.Reachable(p, Session.Play(p, end).value);
    UncutPush(hasher, maxLen, window, hash, data, Session.Play(p, end).value);
  }

  // ---------------------------------------------------------------- pull

  /** The responder of a pull. `store` is what the application answers for a hash; a
      request it drops counts as `None`. */
  function Serve(store: Hash -> Option<Bytes>, input: Bytes): Session.Reaction {
    match Decode(input, HASH_LEN)
    case Truncated => Session.Hold
    case TooLong => Session.Reply([])
    case Frame(h, _) =>
      if |h| != HASH_LEN then Session.Reply([]) else
      Session.Reply(PullReply(store(h)))
  }

  function PullReply(answer: Option<Bytes>): Bytes {
    match answer
    case None => [0]
    case Some(data) => [1] + (if Framable(data) then Encode(data) else [])
  }

  datatype PullResult = Found(data: Bytes) | Missing | WrongData | BadFrame

  function JudgePull(hasher: Hasher, hash: Hash, maxLen: nat, reply: Bytes): Session.Judgement<PullResult> {
    if reply == [] then Session.More
    else if reply[0] == 0 then Session.Final(Missing)
    else match Decode(reply[1..], maxLen)
         case Truncated => Session.More
         case TooLong => Session.Final(BadFrame)
         case Frame(data, _) => Session.Final(if hasher(data) == hash then Found(data) else WrongData)
  }

  function Pull(hasher: Hasher, hash: Hash, maxLen: nat, respond: Bytes -> Session.Reaction,
                window: nat): Session.Protocol<PullResult>
  {
    Session.Protocol(Encode(hash), respond, reply => JudgePull(hasher, hash, maxLen, reply), window)
  }

  /** What the responder answers to any well-formed request: the byte 0 if there is nothing to
      give, and otherwise the byte 1 and the stored data. */
  lemma PullAnswered(store: Hash -> Option<Bytes>, hash: Hash, rest: Bytes)
    ensures store(hash) == None ==> Serve(store, HASH_HEADER + hash + rest) == Session.Reply([0])
    ensures store(hash).Some? && Framable(store(hash).value) ==>
              Serve(store, HASH_HEADER + hash + rest) == Session.Reply([1] + Encode(store(hash).value))
    // data too long for a frame fails after the tag is out
    ensures store(hash).Some? && !Framable(store(hash).value) ==>
              Serve(store, HASH_HEADER + hash + rest) == Session.Reply([1])
  {
    HashFrame(hash);
    RoundTrip(hash, rest, HASH_LEN);
  }

  /** A request whose hash is not 32 bytes long is dropped by either handler. */
  lemma BadHashDropped(hasher: Hasher, maxLen: nat, store: Hash -> Option<Bytes>, h: Bytes, rest: Bytes)
    requires Framable(h) && |h| != 32
    ensures PushReply(Inspect(hasher, maxLen, Encode(h) + rest)) == Session.Reply([])
    ensures Serve(store, Encode(h) + rest) == Session.Reply([])
  {
    if |h| < 32 {
      RoundTrip(h, rest, HASH_LEN);
    } else {
      Oversized(h, rest, HASH_LEN);
    }
  }

  /** How the requester reads a reply: the byte 0 is a miss; after any other byte comes data,
      which must fit and have the hash. */
  lemma PullReplyRead(hasher: Hasher, hash: Hash, maxLen: nat, tag: byte, data: Bytes, rest: Bytes)
    requires Framable(data)
    ensures JudgePull(hasher, hash, maxLen, []) == Session.More
    ensures JudgePull(hasher, hash, maxLen, [0] + rest) == Session.Final(Missing)
    ensures tag != 0 ==>
              JudgePull(hasher, hash, maxLen, [tag] + Encode(data) + rest) ==
              Session.Final(if |data| > maxLen then BadFrame
                            else if hasher(data) == hash then Found(data) else WrongData)
  {
    var reply := [tag] + Encode(data) + rest;
    assert reply[1..] == Encode(data) + rest;
    if |data| > maxLen {
      Oversized(data, rest, maxLen);
    } else {
      RoundTrip(data, rest, maxLen);
    }
  }

  /** Against a responder that writes anything at all, what a pull returns has the hash
      that was asked for and fits the limit. */
  lemma PulledDataIsGenuine(hasher: Hasher, hash: Hash, maxLen: nat, respond: Bytes -> Session.Reaction,
                            window: nat, s: Session.State<PullResult>)
    requires Session.Reachable(Pull(hasher, hash, maxLen, respond, window), s)
    requires s.outcome.Finished? && s.outcome.result.Found?
    ensures hasher(s.outcome.result.data) == hash && |s.outcome.result.data| <= maxLen
  {
    var p := Pull(hasher, hash, maxLen, respond, window);
    Session.ReachableSound(p, s);
    var reply := Session.ReplyBytes(p, s)[..s.seen];
    var Frame(data, rest) := Decode(reply[1..], maxLen);
    DecodeExactlyEncodings(reply[1..], maxLen, data, rest);
  }

  lemma ServePrefix(store: Hash -> Option<Bytes>, hash: Hash, k: nat)
    requires k <= |Encode(hash)|
    ensures Serve(store, Encode(hash)[..k]) ==
            if k < |Encode(hash)| then Session.Hold else Session.Reply(PullReply(store(hash)))
  {
    assert Encode(hash) + [] == Encode(hash);
    if k < |Encode(hash)| {
      CutFrame(hash, [], k, HASH_LEN);
    } else {
      assert Encode(hash)[..k] == Encode(hash);
      RoundTrip(hash, [], HASH_LEN);
    }
  }

  lemma HonestPullWellFormed(hasher: Hasher, hash: Hash, maxLen: nat, store: Hash -> Option<Bytes>, window: nat)
    requires window > 0
    ensures Session.WellFormed(Pull(hasher, hash, maxLen, input => Serve(store, input), window))
  {
    var p := Pull(hasher, hash, maxLen, input => Serve(store, input), window);
    forall k | 0 <= k <= |p.request|
      ensures k < |p.request| ==> p.react(p.request[..k]).Hold?
      ensures k == |p.request| ==> p.react(p.request).Reply?
    {
      ServePrefix(store, hash, k);
      assert p.request[..|p.request|] == p.request;
    }
    assert p.react(p.request).Reply? by {
      ServePrefix(store, hash, |p.request|);
      assert p.request[..|p.request|] == p.request;
    }
  }

  lemma JudgeFound(hasher: Hasher, hash: Hash, maxLen: nat, data: Bytes, k: nat)
    requires Framable(data) && |data| <= maxLen && hasher(data) == hash
    requires k <= |PullReply(Some(data))|
    ensures JudgePull(hasher, hash, maxLen, PullReply(Some(data))[..k]) ==
            if k < |PullReply(Some(data))| then Session.More else Session.Final(Found(data))
  {
    var reply := PullReply(Some(data));
    if k > 0 {
      assert Encode(data) + [] == Encode(data);
      assert reply[..k][1..] == (Encode(data) + [])[..k - 1];
      if k < |reply| {
        CutFrame(data, [], k - 1, maxLen);
      } else {
        RoundTrip(data, [], maxLen);
      }
    }
  }

  /** Over an uncut link to an honest responder, a pull finds `data` exactly when that is
      the stored answer, fits, and has the hash; it reports "don't have it" exactly when
      the answer is `None`. */
  lemma UncutPull(hasher: Hasher, hash: Hash, maxLen: nat, store: Hash -> Option<Bytes>, window: nat,
                  s: Session.State<PullResult>, data: Bytes)
    requires window > 0
    requires Session.Reachable(Pull(hasher, hash, maxLen, input => Serve(store, input), window), s)
    requires Session.Over(s) && !s.cut
    ensures s.outcome == Session.Finished(Found(data))
            <==> store(hash) == Some(data) && Framable(data) && |data| <= maxLen && hasher(data) == hash
    ensures s.outcome == Session.Finished(Missing) <==> store(hash) == None
  {
    var p := Pull(hasher, hash, maxLen, input => Serve(store, input), window);
    HonestPullWellFormed(hasher, hash, maxLen, store, window);
    Session.ReachableSound(p, s);
    forall k | 0 <= k <= |p.request|
      ensures p.react(p.request[..k]) ==
              if k < |p.request| then Session.Hold else Session.Reply(PullReply(store(hash)))
    {
      ServePrefix(store, hash, k);
    }
    assert p.request[..|p.request|] == p.request;
    if s.outcome.Finished? {
      HonestAnswer(hasher, hash, maxLen, store(hash), s.seen);
    }
    match store(hash)
    case None =>
      Session.UncutOutcome(p, s, PullReply(None), 1, Missing);
    case Some(d) =>
      if Framable(d) && |d| <= maxLen && hasher(d) == hash {
        var reply := PullReply(Some(d));
        forall k | 0 <= k <= |reply| ensures k < |reply| ==> p.judge(reply[..k]).More? {
          JudgeFound(hasher, hash, maxLen, d, k);
        }
        JudgeFound(hasher, hash, maxLen, d, |reply|);
        Session.UncutOutcome(p, s, reply, |reply|, Found(d));
      }
  }

  /** No pull from an honest responder hangs on an uncut link, and from wherever it is, it can
      be played to its end: with the stored data if that fits and has the hash, with "don't
      have it" if nothing is stored. */
  lemma PullCompletes(hasher: Hasher, hash: Hash, maxLen: nat, store: Hash -> Option<Bytes>, window: nat,
                      actions: seq<Session.Action>) returns (end: seq<Session.Action>)
    requires window > 0
    requires var now := Session.Play(Pull(hasher, hash, maxLen, input => Serve(store, input), window), actions);
             now.Some? && !now.value.cut
    ensures var p := Pull(hasher, hash, maxLen, input => Serve(store, input), window);
            var now := Session.Play(p, actions).value;
            Session.Over(now) || !(Session.RequesterWaits(p, now) && Session.ResponderWaits(p, now))
    ensures var last := Session.Play(Pull(hasher, hash, maxLen, input => Serve(store, input), window), end);
            && actions <= end && last.Some? && Session.Over(last.value) && !last.value.cut
            && (last.value.outcome == Session.Finished(Missing) <==> store(hash) == None)
            && forall data :: last.value.outcome == Session.Finished(Found(data)) <==>
                 store(hash) == Some(data) && Framable(data) && |data| <= maxLen && hasher(data) == hash
  {
    var p := Pull(hasher, hash, maxLen, input => Serve(store, input), window);
    HonestPullWellFormed(hasher, hash, maxLen, store, window);
    var now := Session.Play(p, actions).value;
    assert Session.Reachable(p, now);
    if !Session.Over(now) {
      Session.NeverBothWait(p, now);
    }
    end := Session.CanFinish(p, actions);
    var last := Session.Play(p, end).value;
    assert Session.Reachable(p, last);
    UncutPull(hasher, hash, maxLen, store, window, last, []);
    forall data ensures last.outcome == Session.Finished(Found(data)) <==>
                  store(hash) == Some(data) && Framable(data) && |data| <= maxLen && hasher(data) == hash
    {
      UncutPull(hasher, hash, maxLen, store, window, last, data);
    }
  }

  /** How much of an honest reply with data is read as what. */
  lemma DataAnswer(hasher: Hasher, hash: Hash, maxLen: nat, data: Bytes, k: nat)
    requires Framable(data) && 0 < k <= |PullReply(Some(data))|
    ensures var j := JudgePull(hasher, hash, maxLen, PullReply(Some(data))[..k]);
            && j != Session.Final(Missing)
            && (j.Final? && j.result.Found? ==> j.result.data == data && |data| <= maxLen && hasher(data) == hash)
  {
    var reply := PullReply(Some(data));
    assert Encode(data) + [] == Encode(data);
    assert reply[..k][1..] == (Encode(data) + [])[..k - 1];
    if k < |reply| {
      CutFrame(data, [], k - 1, maxLen);
    } else if |data| > maxLen {
      Oversized(data, [], maxLen);
    } else {
      RoundTrip(data, [], maxLen);
    }
  }

  /** No prefix of an honest reply is read as something it is not. */
  lemma HonestAnswer(hasher: Hasher, hash: Hash, maxLen: nat, answer: Option<Bytes>, k: nat)
    requires k <= |PullReply(answer)|
    ensures var j := JudgePull(hasher, hash, maxLen, PullReply(answer)[..k]);
            && (j == Session.Final(Missing) ==> answer == None)
            && (j.Final? && j.result.Found? ==>
                  answer == Some(j.result.data) && Framable(j.result.data)
                  && |j.result.data| <= maxLen && hasher(j.result.data) == hash)
  {
    if k > 0 && answer.Some? && Framable(answer.value) {
      DataAnswer(hasher, hash, maxLen, answer.value, k);
    }
  }

  // ---------------------------------------------------------------- the two ends as code

  /** `push`: the whole request goes out, then the verdict is what the reply says; a write
      that fails or a reply that stops short is an error (`None`). */
  method PushChunk(io: Stream, hash: Hash, data: Bytes) returns (result: Option<PushResult>)
    modifies io
    ensures Framable(data) ==>
              io.outgoing == old(io.outgoing)
                             + PushRequest(hash, data)[..Min(|PushRequest(hash, data)|, old(io.room))]
    ensures !Framable(data) ==> result == None
    ensures Framable(data) && |PushRequest(hash, data)| <= old(io.room) ==>
              match JudgePush(old(io.incoming))
              case More => result == None
              case Final(r) => result == if r.Garbled? then None else Some(r)
    ensures Framable(data) && |PushRequest(hash, data)| > old(io.room) ==> result == None
  {
    var ok := io.WriteFrame(hash);
    if !ok {
      if Framable(data) {
        assert PushRequest(hash, data)[..old(io.room)] == Encode(hash)[..old(io.room)];
      }
      return None;
    }
    assert Encode(hash)[..|Encode(hash)|] == Encode(hash);
    ok := io.WriteFrame(data);
    if Framable(data) {
      var n := Min(|Encode(data)|, old(io.room) - |Encode(hash)|);
      assert Encode(hash) + Encode(data)[..n]
          == PushRequest(hash, data)[..Min(|PushRequest(hash, data)|, old(io.room))];
    }
    if !ok {
      return None;
    }
    var tag := io.ReadExact(1);
    if tag.None? {
      return None;
    }
    if tag.value[0] == 1 {
      return Some(Accepted);
    }
    var reason := io.ReadFrame(REASON_LIMIT);
    if reason.None? {
      return None;
    }
    return Some(Refused(reason.value));
  }

  method WriteRefusal(io: Stream, actual: Hash)
    modifies io
    ensures io.incoming == old(io.incoming)
    ensures io.outgoing == old(io.outgoing) + Refuse(actual)[..Min(|Refuse(actual)|, old(io.room))]
  {
    var ok := io.WriteAll([0]);
    if ok {
      assert [0][..1] == [0];
      var sent := io.WriteFrame(Reason(actual));
      assert [0] + Encode(Reason(actual))[..Min(|Encode(Reason(actual))|, old(io.room) - 1)]
          == Refuse(actual)[..Min(|Refuse(actual)|, old(io.room))];
    } else {
      assert Refuse(actual)[..0] == [0][..0];
    }
  }

  /** `handle_incoming_push`: returns the push it passes on, if any. */
  method HandleIncomingPush(io: Stream, hasher: Hasher, maxLen: nat) returns (delivered: Option<(Hash, Bytes)>)
    modifies io
    ensures var reply := PushReply(Inspect(hasher, maxLen, old(io.incoming)));
            var bytes := if reply.Reply? then reply.bytes else [];
            io.outgoing == old(io.outgoing) + bytes[..Min(|bytes|, old(io.room))]
    ensures delivered.Some? <==> Inspect(hasher, maxLen, old(io.incoming)).Verified? && old(io.room) > 0
    ensures delivered.Some? ==>
              Inspect(hasher, maxLen, old(io.incoming)) == Verified(delivered.value.0, delivered.value.1)
  {
    delivered := None;
    var h := io.ReadFrame(HASH_LEN);
    if h.None? || |h.value| != HASH_LEN {
      return;
    }
    var expected: Hash := h.value;
    var data := io.ReadFrame(maxLen);
    if data.None? {
      return;
    }
    var actual := hasher(data.value);
    if actual != expected {
      WriteRefusal(io, actual);
      return;
    }
    var ok := io.WriteAll(ACCEPT);
    if ok {
      delivered := Some((expected, data.value));
    }
  }

  /** `pull`: `None` is an error; `Some(Missing)` is the normal "don't have it". */
  method PullChunk(io: Stream, hasher: Hasher, hash: Hash, maxLen: nat) returns (result: Option<PullResult>)
    modifies io
    ensures io.outgoing == old(io.outgoing) + Encode(hash)[..Min(|Encode(hash)|, old(io.room))]
    ensures |Encode(hash)| > old(io.room) ==> result == None
    ensures |Encode(hash)| <= old(io.room) ==>
              match JudgePull(hasher, hash, maxLen, old(io.incoming))
              case More => result == None
              case Final(r) => result == if r.BadFrame? || r.WrongData? then None else Some(r)
  {
    var ok := io.WriteFrame(hash);
    if !ok {
      return None;
    }
    var tag := io.ReadExact(1);
    if tag.None? {
      return None;
    }
    if tag.value[0] == 0 {
      return Some(Missing);
    }
    var data := io.ReadFrame(maxLen);
    if data.None? {
      return None;
    }
    if hasher(data.value) == hash {
      return Some(Found(data.value));
    }
    return None;
  }

  /** `handle_incoming_pull`. */
  method HandleIncomingPull(io: Stream, store: Hash -> Option<Bytes>)
    modifies io
    ensures var reply := Serve(store, old(io.incoming));
            var bytes := if reply.Reply? then reply.bytes else [];
            io.outgoing == old(io.outgoing) + bytes[..Min(|bytes|, old(io.room))]
  {
    var h := io.ReadFrame(HASH_LEN);
    if h.None? || |h.value| != HASH_LEN {
      return;
    }
    var answer := store(h.value);
    match answer
    case None =>
      var ok := io.WriteAll([0]);
    case Some(data) =>
      var ok := io.WriteAll([1]);
      if ok {
        assert [1][..1] == [1];
        var sent := io.WriteFrame(data);
        if Framable(data) {
          assert [1] + Encode(data)[..Min(|Encode(data)|, old(io.room) - 1)]
              == PullReply(answer)[..Min(|PullReply(answer)|, old(io.room))];
        }
      } else {
        assert PullReply(answer)[..0] == [1][..0];
      }
  }
}
