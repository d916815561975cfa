/**
 * The web client's VoIP call object: its signalling state machine and the
 * queue that batches local ICE candidates into `m.call.candidates` events.
 *
 * WebRTC, media capture, timers and the network are not modelled as such:
 * every call into them is appended to the call's `effects` log (a timer as a
 * `Schedule` of a task with its delay in milliseconds).  The environment
 * later invokes the matching handler method.
 */
module Call {
  import opened Wrappers

  /** The values of the `state` field. */
  datatype CallState =
    | Fledgling | WaitLocalMedia | CreateOffer | InviteSent | Ringing
    | CreateAnswer | Connecting | Connected | Ended

  datatype Direction = Outbound | Inbound
  datatype Party = Local | Remote

  /** The peer connection, as far as the call's code looks at it. */
  datatype Peer = NoPeer | Open | Closed

  /** `iceConnectionState` of the peer connection. */
  datatype IceState = IceNew | IceChecking | IceConnected | IceCompleted | IceFailed | IceDisconnected | IceClosed

  type Stream = nat
  type Candidate = string

  /** `MatrixCall.CALL_TIMEOUT`, in milliseconds. */
  const CallTimeout: int := 60000

  /** The delay before a freshly queued candidate is flushed, in milliseconds. */
  const FlushDelay: int := 100

  /** Content of the signalling events (all at version 0). */
  datatype Content =
    | InviteContent(callId: string, offer: string, lifetime: int)
    | AnswerContent(callId: string, answer: string)
    | HangupContent(callId: string)

  /** An event sent with retry: `{type, content, tries}`. */
  class OutgoingEvent {
    const evType: string
    const content: Content
    var tries: nat

    constructor (evType: string, content: Content)
      ensures this.evType == evType && this.content == content && tries == 1
    {
      this.evType := evType;
      this.content := content;
      tries := 1;
    }
  }

  /** A function handed to `$timeout`. */
  datatype Task = FlushCandidates | Resend(ev: OutgoingEvent) | RingTimeout | InviteTimeout

  /** A call out of the call object, in the order it was made. */
  datatype Effect =
    | CallPlaced                                         // matrixPhoneService.callPlaced
    | GetUserMedia(audio: bool, video: bool, forAnswer: bool)
    | CreatePeer
    | AddStream(stream: Stream)
    | CreateOfferOp
    | CreateAnswerOp
    | SetLocalDescription(description: string)
    | SetRemoteDescription(description: string)
    | AddIceCandidate(candidate: Candidate)
    | ClosePeer
    | StopAllMedia
    | PlayRemote(stream: Stream)
    | Send(evType: string, content: Content)             // matrixService.sendEvent
    | SendCandidates(callId: string, candidates: seq<Candidate>)
    | Schedule(task: Task, delayMs: int)                 // $timeout
    | NotifyHangup                                       // the onHangup listener
    | NotifyError(message: string)                       // the onError listener
    | TypeErrorThrown                                    // `this.peerConn.…` with no peer connection

  // ---------------------------------------------------------------------------
  // The signalling state machine

  /** What a handler, given what it inspects besides `state`, does to `state`. */
  datatype Trigger =
    | PlacingCall
    | InviteReceived
    | HangupReplayed
    | Answering(hasLocalStream: bool, waitingForStream: bool, hasPeer: bool)
    | LocalHangup
    | UserMediaFailed
    | InviteMediaReady(hasSuccessor: bool)
    | AnswerMediaReady(hasPeer: bool)
    | LocalCandidate
    | RemoteCandidate
    | AnswerReceived(hasPeer: bool)
    | OfferCreated
    | AnswerCreated
    | IceChanged(ice: IceState)
    | RemoteMediaStarted
    | RemoteMediaEnded
    | RemoteTrackBegan
    | RemoteHangup
    | Replaced
    | RingTimedOut
    | InviteTimedOut

  /** The handlers that can move a call out of `ended`: those without an `ended` guard. */
  predicate Reopens(t: Trigger)
  {
    t.PlacingCall? || t.InviteReceived? || (t.Answering? && !t.hasLocalStream)
    || t.AnswerCreated? || t.RemoteMediaStarted?
  }

  /** Hanging up, locally or remotely, by replacement or by losing the remote stream. */
  predicate HangsUp(t: Trigger)
  {
    t.LocalHangup? || t.UserMediaFailed? || t.RemoteHangup? || t.RemoteMediaEnded?
    || t.Replaced? || t.HangupReplayed?
  }

  /**
   * The state a handler leaves the call in.  `ended` is left exactly by the
   * handlers without an `ended` guard; every guarded one (media ready for an
   * invite or an answer, a remote candidate, an answer, a local offer, an ICE
   * change, the timeouts) keeps it; every way of hanging up ends the call.
   */
  function Next(s: CallState, t: Trigger): (r: CallState)
    ensures s == Ended ==> (r != Ended <==> Reopens(t))
    ensures HangsUp(t) ==> r == Ended
    ensures t.LocalCandidate? || t.RemoteCandidate? || t.RemoteTrackBegan? ==> r == s
  {
    match t
    case PlacingCall => WaitLocalMedia
    case InviteReceived => Ringing
    case HangupReplayed => Ended
    case Answering(hasLocalStream, waitingForStream, hasPeer) =>
      if !hasLocalStream && !waitingForStream then WaitLocalMedia
      else if hasLocalStream then AnswerMediaNext(s, hasPeer)
      else WaitLocalMedia
    case LocalHangup => Ended
    case UserMediaFailed => Ended
    case InviteMediaReady(hasSuccessor) =>
      if hasSuccessor || s == Ended then s else CreateOffer
    case AnswerMediaReady(hasPeer) => AnswerMediaNext(s, hasPeer)
    case LocalCandidate => s
    case RemoteCandidate => s
    case AnswerReceived(hasPeer) =>
      if s == Ended || !hasPeer then s else Connecting
    case OfferCreated => if s == Ended then s else InviteSent
    case AnswerCreated => Connecting
    case IceChanged(ice) =>
      if s != Ended && (ice == IceCompleted || ice == IceConnected) then Connected else s
    case RemoteMediaStarted => Connected
    case RemoteMediaEnded => Ended
    case RemoteTrackBegan => s   // the handler runs with the track as `this`
    case RemoteHangup => Ended
    case Replaced => Ended
    case RingTimedOut => if s == Ringing then Ended else s
    case InviteTimedOut => if s == InviteSent then Ended else s
  }

  /** `gotUserMediaForAnswer`, which `answer` calls when it already holds a stream. */
  function AnswerMediaNext(s: CallState, hasPeer: bool): CallState
  {
    if s == Ended || !hasPeer then s else CreateAnswer
  }

  /** The only ways into `connected` are an ICE success and the remote stream starting. */
  lemma ConnectedOnlyByMediaOrIce(s: CallState, t: Trigger)
    requires s != Connected && Next(s, t) == Connected
    ensures t.IceChanged? || t.RemoteMediaStarted?
  {
  }

  // ---------------------------------------------------------------------------
  // Retry delays and the candidate queue

  function Pow2(n: nat): (p: nat)
    ensures p >= 1
  {
    if n == 0 then 1 else 2 * Pow2(n - 1)
  }

  /** `500 * Math.pow(2, tries)`. */
  function Backoff(tries: nat): (d: int)
    ensures d >= 500
  {
    500 * Pow2(tries)
  }

  /**
   * The delays `eventSendFailed` schedules for an event whose every send
   * fails, from its current `tries` until it gives up.
   */
  function EventRetryDelays(tries: nat): (ds: seq<int>)
    ensures |ds| == if tries > 5 then 0 else 6 - tries
    ensures forall i :: 0 <= i < |ds| ==> ds[i] == Backoff(tries + i)
    decreases 6 - tries
  {
    if tries > 5 then [] else [Backoff(tries)] + EventRetryDelays(tries + 1)
  }

  /** A fresh event (tries 1) is retried five times, after 1, 2, 4, 8 and 16 seconds. */
  lemma EventRetrySchedule()
    ensures EventRetryDelays(1) == [1000, 2000, 4000, 8000, 16000]
  {
    assert Pow2(1) == 2 && Pow2(2) == 4 && Pow2(3) == 8 && Pow2(4) == 16 && Pow2(5) == 32;
    var ds := EventRetryDelays(1);
    assert ds[0] == Backoff(1) && ds[1] == Backoff(2) && ds[2] == Backoff(3) && ds[3] == Backoff(4) && ds[4] == Backoff(5);
  }

  /** `candidateSendQueue` and `candidateSendTries`. */
  datatype CandidateQueue = CandidateQueue(pending: seq<Candidate>, tries: nat)

  /** `sendCandidate`: the candidate joins the end of the queue. */
  function Push(q: CandidateQueue, c: Candidate): CandidateQueue
  {
    q.(pending := q.pending + [c])
  }

  function PushAll(q: CandidateQueue, cs: seq<Candidate>): (r: CandidateQueue)
    ensures r.tries == q.tries
    decreases |cs|
  {
    if |cs| == 0 then q else PushAll(Push(q, cs[0]), cs[1..])
  }

  lemma {:induction false} PushAllAppends(q: CandidateQueue, cs: seq<Candidate>)
    ensures PushAll(q, cs) == q.(pending := q.pending + cs)
    decreases |cs|
  {
    if |cs| > 0 {
      PushAllAppends(Push(q, cs[0]), cs[1..]);
      assert q.pending + [cs[0]] + cs[1..] == q.pending + cs;
    }
  }

  /** `sendCandidateQueue`: the queue after the flush and the batch sent (none for an empty queue). */
  function Drain(q: CandidateQueue): (r: (CandidateQueue, seq<Candidate>))
    ensures r.0.pending == [] && r.1 == q.pending
    ensures |q.pending| == 0 ==> r.0 == q
    ensures |q.pending| > 0 ==> r.0.tries == q.tries + 1
  {
    if |q.pending| == 0 then (q, []) else (CandidateQueue([], q.tries + 1), q.pending)
  }

  /** `candsSendFailed(cands)`: the queue afterwards and the delay of the retry, if one is scheduled. */
  function Failed(q: CandidateQueue, cands: seq<Candidate>): (r: (CandidateQueue, Option<int>))
    ensures r.0.pending == q.pending + cands
    ensures r.1.None? <==> q.tries > 5
    ensures r.1.None? ==> r.0.tries == 0
    ensures r.1.Some? ==> r.1.value == 500 * Pow2(q.tries) && r.0.tries == q.tries + 1
  {
    var back := q.pending + cands;
    if q.tries > 5 then (CandidateQueue(back, 0), None)
    else (CandidateQueue(back, q.tries + 1), Some(Backoff(q.tries)))
  }

  /**
   * No candidate is lost: when a batch fails, the queue holds the candidates
   * queued while it was in flight followed by the whole batch, whether the
   * sender retries or gives up.
   */
  lemma {:induction false} FailedBatchRequeued(q: CandidateQueue, later: seq<Candidate>)
    requires |q.pending| > 0
    ensures var (inFlight, batch) := Drain(q);
            Failed(PushAll(inFlight, later), batch).0.pending == later + q.pending
    ensures var (inFlight, batch) := Drain(q);
            multiset(Failed(PushAll(inFlight, later), batch).0.pending) == multiset(q.pending) + multiset(later)
  {
    var (inFlight, batch) := Drain(q);
    PushAllAppends(inFlight, later);
    assert [] + later == later;
  }

  /**
   * The delays scheduled for a non-empty queue whose every send fails, until
   * the sender gives up.  Both the flush and the failure count an attempt.
   */
  function CandidateRetryDelays(q: CandidateQueue): seq<int>
    requires |q.pending| > 0
    decreases 7 - q.tries
  {
    var (inFlight, batch) := Drain(q);
    var (after, delay) := Failed(inFlight, batch);
    match delay
    case None => []
    case Some(d) => [d] + CandidateRetryDelays(after)
  }

  /**
   * Because a failed flush counts twice, a queue is retried only three times,
   * after 1, 4 and 16 seconds, before the sender gives up.
   */
  lemma CandidateRetrySchedule(pending: seq<Candidate>)
    requires |pending| > 0
    ensures CandidateRetryDelays(CandidateQueue(pending, 0)) == [1000, 4000, 16000]
  {
    assert Pow2(1) == 2 && Pow2(3) == 8 && Pow2(5) == 32;
    var q0 := CandidateQueue(pending, 0);
    var q2 := CandidateQueue(pending, 2);
    var q4 := CandidateQueue(pending, 4);
    var q6 := CandidateQueue(pending, 6);
    assert [] + pending == pending;
    assert Drain(q0).0 == CandidateQueue([], 1) && Failed(CandidateQueue([], 1), pending) == (q2, Some(1000));
    assert Drain(q2).0 == CandidateQueue([], 3) && Failed(CandidateQueue([], 3), pending) == (q4, Some(4000));
    assert Drain(q4).0 == CandidateQueue([], 5) && Failed(CandidateQueue([], 5), pending) == (q6, Some(16000));
    assert Drain(q6).0 == CandidateQueue([], 7) && Failed(CandidateQueue([], 7), pending).1 == None;
    assert CandidateRetryDelays(q6) == [];
    assert CandidateRetryDelays(q4) == [16000] + CandidateRetryDelays(q6);
    assert CandidateRetryDelays(q2) == [4000] + CandidateRetryDelays(q4);
    assert CandidateRetryDelays(q0) == [1000] + CandidateRetryDelays(q2);
  }

  // ---------------------------------------------------------------------------
  // The call object

  /** Every field of a call, for stating a handler's whole effect at once. */
  datatype CallFields = CallFields(
    state: CallState, didConnect: bool, direction: Option<Direction>,
    hangupParty: Option<Party>, hangupReason: Option<string>,
    successor: MatrixCall?, localAVStream: Option<Stream>, remoteAVStream: Option<Stream>,
    waitForLocalAVStream: bool, peer: Peer,
    candidateSendQueue: seq<Candidate>, candidateSendTries: nat, effects: seq<Effect>)

  class MatrixCall {
    const roomId: string
    const callId: string
    const hasHangupListener: bool
    var state: CallState
    var didConnect: bool
    var direction: Option<Direction>
    var hangupParty: Option<Party>
    var hangupReason: Option<string>
    var successor: MatrixCall?
    var localAVStream: Option<Stream>
    var remoteAVStream: Option<Stream>
    var waitForLocalAVStream: bool
    var peer: Peer
    var candidateSendQueue: seq<Candidate>
    var candidateSendTries: nat
    var effects: seq<Effect>

    ghost function Fields(): CallFields
      reads this
    {
      CallFields(state, didConnect, direction, hangupParty, hangupReason, successor, localAVStream,
                 remoteAVStream, waitForLocalAVStream, peer, candidateSendQueue, candidateSendTries, effects)
    }

    ghost function Queue(): CandidateQueue
      reads this
    {
      CandidateQueue(candidateSendQueue, candidateSendTries)
    }

    /** `new MatrixCall(room_id)`: a fledgling call with an empty candidate queue. */
    constructor (roomId: string, callId: string, hasHangupListener: bool)
      ensures this.roomId == roomId && this.callId == callId && this.hasHangupListener == hasHangupListener
      ensures Fields() == CallFields(Fledgling, false, None, None, None, null, None, None, false, NoPeer, [], 0, [])
    {
      this.roomId := roomId;
      this.callId := callId;
      this.hasHangupListener := hasHangupListener;
      state := Fledgling;
      didConnect := false;
      direction := None;
      hangupParty := None;
      hangupReason := None;
      successor := null;
      localAVStream := None;
      remoteAVStream := None;
      waitForLocalAVStream := false;
      peer := NoPeer;
      candidateSendQueue := [];
      candidateSendTries := 0;
      effects := [];
    }

    /** `placeCall`: ask for local media and wait for it. */
    method PlaceCall(audio: bool, video: bool)
      modifies this
      ensures state == Next(old(state), PlacingCall)
      ensures Fields() == old(Fields()).(state := WaitLocalMedia, direction := Some(Outbound),
                                        effects := old(effects) + [CallPlaced, GetUserMedia(audio, video, false)])
    {
      effects := effects + [CallPlaced, GetUserMedia(audio, video, false)];
      state := WaitLocalMedia;
      direction := Some(Outbound);
    }

    /** `initWithInvite`: open a peer connection on the offer, ring, and time the ringing out. */
    method InitWithInvite(offer: string, lifetime: int, age: int)
      modifies this
      ensures state == Next(old(state), InviteReceived)
      ensures Fields() == old(Fields()).(state := Ringing, direction := Some(Inbound), peer := Open,
        effects := old(effects) + [CreatePeer, SetRemoteDescription(offer), Schedule(RingTimeout, lifetime - age)])
    {
      peer := Open;
      effects := effects + [CreatePeer, SetRemoteDescription(offer)];
      state := Ringing;
      direction := Some(Inbound);
      effects := effects + [Schedule(RingTimeout, lifetime - age)];
    }

    /** The ring timeout: a call still ringing ends as if the remote side hung up. */
    method RingTimeoutFired()
      modifies this
      ensures state == Next(old(state), RingTimedOut)
      ensures old(state) != Ringing ==> Fields() == old(Fields())
      ensures old(state) == Ringing ==> Fields() == old(Fields()).(
        state := Ended, hangupParty := Some(Remote),
        peer := if old(peer) == Open then Closed else old(peer),
        effects := old(effects) + [StopAllMedia] + HangupTail(old(peer), hasHangupListener))
    {
      if state == Ringing {
        state := Ended;
        hangupParty := Some(Remote);
        effects := effects + [StopAllMedia];
        CloseIfOpenAndNotify();
      }
    }

    /**
     * The effects after "stop all media" of a hangup from the remote side:
     * `peerConn.signalingState` throws without a connection, an open one is
     * closed, then the listener hears of it.
     */
    static function HangupTail(peer: Peer, listener: bool): seq<Effect>
    {
      if peer == NoPeer then [TypeErrorThrown]
      else (if peer == Open then [ClosePeer] else []) + (if listener then [NotifyHangup] else [])
    }

    method CloseIfOpenAndNotify()
      modifies this
      ensures Fields() == old(Fields()).(peer := if old(peer) == Open then Closed else old(peer),
                                        effects := old(effects) + HangupTail(old(peer), hasHangupListener))
    {
      if peer == NoPeer {
        effects := effects + [TypeErrorThrown];
        return;
      }
      if peer == Open {
        peer := Closed;
        effects := effects + [ClosePeer];
      }
      if hasHangupListener {
        effects := effects + [NotifyHangup];
      }
    }

    /** `initWithHangup`: a call first seen through its hangup is ended at once. */
    method InitWithHangup()
      modifies this
      ensures state == Next(old(state), HangupReplayed)
      ensures Fields() == old(Fields()).(state := Ended)
    {
      state := Ended;
    }

    /** `answer`: ask for media, use the stream already at hand, or keep waiting for it. */
    method Answer()
      modifies this
      ensures state == Next(old(state), Answering(old(localAVStream).Some?, old(waitForLocalAVStream), old(peer) != NoPeer))
      ensures old(localAVStream).None? && !old(waitForLocalAVStream) ==>
        Fields() == old(Fields()).(state := WaitLocalMedia, effects := old(effects) + [GetUserMedia(true, false, true)])
      ensures old(localAVStream).None? && old(waitForLocalAVStream) ==>
        Fields() == old(Fields()).(state := WaitLocalMedia)
      ensures old(localAVStream).Some? ==> Fields() == AnswerMedia(old(Fields()), old(localAVStream).value)
    {
      if localAVStream.None? && !waitForLocalAVStream {
        effects := effects + [GetUserMedia(true, false, true)];
        state := WaitLocalMedia;
      } else if localAVStream.Some? {
        GotUserMediaForAnswer(localAVStream.value);
      } else if waitForLocalAVStream {
        state := WaitLocalMedia;
      }
    }

    /** The fields after `gotUserMediaForAnswer(stream)`. */
    static ghost function AnswerMedia(f: CallFields, stream: Stream): CallFields
    {
      if f.state == Ended then f
      else if f.peer == NoPeer then f.(localAVStream := Some(stream), effects := f.effects + [TypeErrorThrown])
      else f.(localAVStream := Some(stream), state := CreateAnswer,
              effects := f.effects + [AddStream(stream), CreateAnswerOp])
    }

    /** `gotUserMediaForAnswer`: add the stream to the connection and create the answer. */
    method GotUserMediaForAnswer(stream: Stream)
      modifies this
      ensures state == Next(old(state), AnswerMediaReady(old(peer) != NoPeer))
      ensures old(state) == Ended ==> unchanged(this)
      ensures Fields() == AnswerMedia(old(Fields()), stream)
    {
      if state == Ended {
        return;
      }
      localAVStream := Some(stream);
      if peer == NoPeer {
        effects := effects + [TypeErrorThrown];
        return;
      }
      effects := effects + [AddStream(stream), CreateAnswerOp];
      state := CreateAnswer;
    }

    /**
     * `gotUserMediaForInvite`: a replaced call hands the stream to its
     * successor as an answer; otherwise open a connection and create the offer.
     */
    method GotUserMediaForInvite(stream: Stream)
      modifies this, successor
      ensures old(successor) == null ==> state == Next(old(state), InviteMediaReady(false))
      ensures old(successor) == null && old(state) == Ended ==> unchanged(this)
      ensures old(successor) == null && old(state) != Ended ==>
        Fields() == old(Fields()).(state := CreateOffer, localAVStream := Some(stream), peer := Open,
                                   effects := old(effects) + [CreatePeer, AddStream(stream), CreateOfferOp])
      ensures old(successor) != null ==> successor == old(successor)
      ensures old(successor) != null ==>
        successor.Fields() == AnswerMedia(old(successor.Fields()), stream)
      ensures old(successor) != null && old(successor) != this ==> unchanged(this)
    {
      if successor != null {
        successor.GotUserMediaForAnswer(stream);
        return;
      }
      if state == Ended {
        return;
      }
      localAVStream := Some(stream);
      peer := Open;
      effects := effects + [CreatePeer, AddStream(stream), CreateOfferOp];
      state := CreateOffer;
    }

    /** `gotLocalIceCandidate`: queue the candidate the connection found, if any. */
    method GotLocalIceCandidate(candidate: Option<Candidate>)
      modifies this
      ensures candidate.None? ==> Fields() == old(Fields())
      ensures candidate.Some? ==> Fields() == old(Fields()).(
        candidateSendQueue := old(candidateSendQueue) + [candidate.value],
        effects := old(effects) + (if old(candidateSendTries) == 0 then [Schedule(FlushCandidates, FlushDelay)] else []))
    {
      if candidate.Some? {
        SendCandidate(candidate.value);
      }
    }

    /** `gotRemoteIceCandidate`: hand the remote candidate to the connection unless the call has ended. */
    method GotRemoteIceCandidate(candidate: Candidate)
      modifies this
      ensures state == Next(old(state), RemoteCandidate)
      ensures old(state) == Ended ==> unchanged(this)
      ensures old(state) != Ended ==> Fields() == old(Fields()).(
        effects := old(effects) + [if old(peer) == NoPeer then TypeErrorThrown else AddIceCandidate(candidate)])
    {
      if state == Ended {
        return;
      }
      if peer == NoPeer {
        effects := effects + [TypeErrorThrown];
        return;
      }
      effects := effects + [AddIceCandidate(candidate)];
    }

    /** `receivedAnswer`: apply the callee's answer and start connecting, unless the call has ended. */
    method ReceivedAnswer(answer: string)
      modifies this
      ensures state == Next(old(state), AnswerReceived(old(peer) != NoPeer))
      ensures old(state) == Ended ==> unchanged(this)
      ensures old(state) != Ended && old(peer) == NoPeer ==>
        Fields() == old(Fields()).(effects := old(effects) + [TypeErrorThrown])
      ensures old(state) != Ended && old(peer) != NoPeer ==>
        Fields() == old(Fields()).(state := Connecting, effects := old(effects) + [SetRemoteDescription(answer)])
    {
      if state == Ended {
        return;
      }
      if peer == NoPeer {
        effects := effects + [TypeErrorThrown];
        return;
      }
      effects := effects + [SetRemoteDescription(answer)];
      state := Connecting;
    }

    /**
     * `gotLocalOffer` (a callback of the connection): send the invite, time it
     * out after `CALL_TIMEOUT`, and wait in `invite_sent`, unless the call has ended.
     */
    method GotLocalOffer(description: string)
      requires peer != NoPeer
      modifies this
      ensures state == Next(old(state), OfferCreated)
      ensures old(state) == Ended ==> unchanged(this)
      ensures old(state) != Ended ==> Fields() == old(Fields()).(state := InviteSent,
        effects := old(effects) + [SetLocalDescription(description),
                                   Send("m.call.invite", InviteContent(callId, description, CallTimeout)),
                                   Schedule(InviteTimeout, CallTimeout)])
    {
      if state == Ended {
        return;
      }
      effects := effects + [SetLocalDescription(description)];
      var _ := SendEventWithRetry("m.call.invite", InviteContent(callId, description, CallTimeout));
      effects := effects + [Schedule(InviteTimeout, CallTimeout)];
      state := InviteSent;
    }

    /** The invite timeout: a call still waiting in `invite_sent` is hung up locally. */
    method InviteTimeoutFired()
      modifies this
      ensures state == Next(old(state), InviteTimedOut)
      ensures old(state) != InviteSent ==> Fields() == old(Fields())
      ensures old(state) == InviteSent ==>
        Fields() == LocalHangupFields(old(Fields()), callId, hasHangupListener, false).(hangupReason := Some("invite_timeout"))
    {
      if state == InviteSent {
        hangupReason := Some("invite_timeout");
        Hangup(false);
      }
    }

    /**
     * `createdAnswer` (a callback of the connection): send the answer and
     * move to `connecting`.  There is no `ended` guard here.
     */
    method CreatedAnswer(description: string)
      requires peer != NoPeer
      modifies this
      ensures state == Next(old(state), AnswerCreated)
      ensures Fields() == old(Fields()).(state := Connecting,
        effects := old(effects) + [SetLocalDescription(description), Send("m.call.answer", AnswerContent(callId, description))])
    {
      effects := effects + [SetLocalDescription(description)];
      var _ := SendEventWithRetry("m.call.answer", AnswerContent(callId, description));
      state := Connecting;
    }

    /** `getLocalOfferFailed`: report the error. */
    method GetLocalOfferFailed()
      modifies this
      ensures Fields() == old(Fields()).(effects := old(effects) + [NotifyError("Failed to start audio for call!")])
    {
      effects := effects + [NotifyError("Failed to start audio for call!")];
    }

    /** `getUserMediaFailed`: report the error and hang up. */
    method GetUserMediaFailed()
      modifies this
      ensures state == Next(old(state), UserMediaFailed)
      ensures Fields() == LocalHangupFields(
        old(Fields()).(effects := old(effects) + [NotifyError("Couldn't start capturing audio! Is your microphone set up?")]),
        callId, hasHangupListener, false)
    {
      effects := effects + [NotifyError("Couldn't start capturing audio! Is your microphone set up?")];
      Hangup(false);
    }

    /** `onIceConnectionStateChanged` (a callback of the connection): `completed` or `connected` means connected. */
    method OnIceConnectionStateChanged(ice: IceState)
      requires peer != NoPeer
      modifies this
      ensures state == Next(old(state), IceChanged(ice))
      ensures old(state) == Ended ==> unchanged(this)
      ensures old(state) != Ended && (ice == IceCompleted || ice == IceConnected) ==>
        Fields() == old(Fields()).(state := Connected, didConnect := true)
      ensures !(ice == IceCompleted || ice == IceConnected) ==> Fields() == old(Fields())
    {
      if state == Ended {
        return;
      }
      if ice == IceCompleted || ice == IceConnected {
        state := Connected;
        didConnect := true;
      }
    }

    /** `onAddStream`: remember the remote stream and play it. */
    method OnAddStream(stream: Stream)
      modifies this
      ensures Fields() == old(Fields()).(remoteAVStream := Some(stream), effects := old(effects) + [PlayRemote(stream)])
    {
      remoteAVStream := Some(stream);
      effects := effects + [PlayRemote(stream)];
    }

    /** `onRemoteStreamStarted`: connected, with no `ended` guard. */
    method OnRemoteStreamStarted()
      modifies this
      ensures state == Next(old(state), RemoteMediaStarted)
      ensures Fields() == old(Fields()).(state := Connected)
    {
      state := Connected;
    }

    /**
     * A remote track's `started` event.  `onAddStream` registers
     * `onRemoteStreamTrackStarted` on the track without binding it, so the
     * handler runs with the track as `this`: its write to `state` lands on
     * the track, and the call is left as it was.
     */
    method OnRemoteStreamTrackStarted()
      ensures state == Next(state, RemoteTrackBegan)
    {
    }

    /** `onRemoteStreamEnded`: the remote side has gone; end the call. */
    method OnRemoteStreamEnded()
      modifies this
      ensures state == Next(old(state), RemoteMediaEnded)
      ensures Fields() == old(Fields()).(state := Ended, hangupParty := Some(Remote),
        peer := if old(peer) == Open then Closed else old(peer),
        effects := old(effects) + [StopAllMedia] + HangupTail(old(peer), hasHangupListener))
    {
      state := Ended;
      hangupParty := Some(Remote);
      effects := effects + [StopAllMedia];
      CloseIfOpenAndNotify();
    }

    /** `onHangupReceived`: the remote side hung up. */
    method OnHangupReceived()
      modifies this
      ensures state == Ended && hangupParty == Some(Remote)
      ensures state == Next(old(state), RemoteHangup)
      ensures Fields() == old(Fields()).(state := Ended, hangupParty := Some(Remote),
        peer := if old(peer) == Open then Closed else old(peer),
        effects := old(effects) + [StopAllMedia] + HangupTail(old(peer), hasHangupListener))
    {
      state := Ended;
      hangupParty := Some(Remote);
      effects := effects + [StopAllMedia];
      CloseIfOpenAndNotify();
    }

    /** The fields after `hangup(suppressEvent)`. */
    static ghost function LocalHangupFields(f: CallFields, callId: string, listener: bool, suppressEvent: bool): CallFields
    {
      f.(state := Ended, hangupParty := Some(Local),
         peer := if f.peer == NoPeer then NoPeer else Closed,
         effects := f.effects + [StopAllMedia] + (if f.peer == NoPeer then [] else [ClosePeer])
                    + [Send("m.call.hangup", HangupContent(callId))]
                    + (if listener && !suppressEvent then [NotifyHangup] else []))
    }

    /** `hangup`: stop the media, close the connection, send the hangup and end the call. */
    method Hangup(suppressEvent: bool)
      modifies this
      ensures state == Ended && hangupParty == Some(Local)
      ensures state == Next(old(state), LocalHangup)
      ensures Fields() == LocalHangupFields(old(Fields()), callId, hasHangupListener, suppressEvent)
    {
      ghost var f := Fields();
      effects := effects + [StopAllMedia];
      if peer != NoPeer {
        peer := Closed;
        effects := effects + [ClosePeer];
      }
      hangupParty := Some(Local);
      var _ := SendEventWithRetry("m.call.hangup", HangupContent(callId));
      state := Ended;
      assert effects == f.effects + [StopAllMedia] + (if f.peer == NoPeer then [] else [ClosePeer])
                        + [Send("m.call.hangup", HangupContent(callId))];
      if hasHangupListener && !suppressEvent {
        effects := effects + [NotifyHangup];
      }
    }

    /**
     * `replacedBy(newCall)` under glare: pass on the pending media request or
     * the local stream, remember the successor and hang up without notifying.
     */
    method ReplacedBy(newCall: MatrixCall)
      requires newCall != this
      modifies this, newCall
      ensures state == Next(old(state), Replaced)
      ensures old(state) == WaitLocalMedia ==> newCall.Fields() == old(newCall.Fields()).(waitForLocalAVStream := true)
      ensures old(state) == CreateOffer || old(state) == InviteSent ==>
        newCall.Fields() == old(newCall.Fields()).(localAVStream := old(localAVStream))
      ensures !(old(state) in {WaitLocalMedia, CreateOffer, InviteSent}) ==> newCall.Fields() == old(newCall.Fields())
      ensures Fields() == LocalHangupFields(
        old(Fields()).(successor := newCall,
                       localAVStream := if old(state) == CreateOffer || old(state) == InviteSent then None
                                        else old(localAVStream)),
        callId, hasHangupListener, true)
    {
      if state == WaitLocalMedia {
        newCall.waitForLocalAVStream := true;
      } else if state == CreateOffer {
        newCall.localAVStream := localAVStream;
        localAVStream := None;
      } else if state == InviteSent {
        newCall.localAVStream := localAVStream;
        localAVStream := None;
      }
      successor := newCall;
      Hangup(true);
    }

    /** `sendEventWithRetry`: send the event with `tries` at 1; the event is handed back for its failure callback. */
    method SendEventWithRetry(evType: string, content: Content) returns (ev: OutgoingEvent)
      modifies this
      ensures fresh(ev) && ev.evType == evType && ev.content == content && ev.tries == 1
      ensures Fields() == old(Fields()).(effects := old(effects) + [Send(evType, content)])
    {
      ev := new OutgoingEvent(evType, content);
      effects := effects + [Send(evType, content)];
    }

    /** `eventSendFailed`: retry after `500 * 2^tries` ms, or give up after the fifth retry. */
    method EventSendFailed(ev: OutgoingEvent)
      modifies this, ev
      ensures old(ev.tries) > 5 ==> unchanged(this, ev)
      ensures old(ev.tries) <= 5 ==> ev.tries == old(ev.tries) + 1
      ensures old(ev.tries) <= 5 ==>
        Fields() == old(Fields()).(effects := old(effects) + [Schedule(Resend(ev), Backoff(old(ev.tries)))])
    {
      if ev.tries > 5 {
        return;
      }
      var delayMs := Backoff(ev.tries);
      ev.tries := ev.tries + 1;
      effects := effects + [Schedule(Resend(ev), delayMs)];
    }

    /** The retry timer of an event: send it again. */
    method ResendEvent(ev: OutgoingEvent)
      modifies this
      ensures Fields() == old(Fields()).(effects := old(effects) + [Send(ev.evType, ev.content)])
    {
      effects := effects + [Send(ev.evType, ev.content)];
    }

    /** `sendCandidate`: queue the candidate; schedule a flush unless a send is under way. */
    method SendCandidate(c: Candidate)
      modifies this
      ensures Queue() == Push(old(Queue()), c)
      ensures Fields() == old(Fields()).(
        candidateSendQueue := old(candidateSendQueue) + [c],
        effects := old(effects) + (if old(candidateSendTries) == 0 then [Schedule(FlushCandidates, FlushDelay)] else []))
    {
      candidateSendQueue := candidateSendQueue + [c];
      if candidateSendTries == 0 {
        effects := effects + [Schedule(FlushCandidates, FlushDelay)];
      }
    }

    /** `sendCandidateQueue`: send the whole queue as one event and count the attempt. */
    method SendCandidateQueue()
      modifies this
      ensures Queue() == Drain(old(Queue())).0
      ensures Fields() == old(Fields()).(
        candidateSendQueue := Drain(old(Queue())).0.pending,
        candidateSendTries := Drain(old(Queue())).0.tries,
        effects := old(effects) + if |old(candidateSendQueue)| == 0 then []
                                  else [SendCandidates(callId, old(candidateSendQueue))])
    {
      if |candidateSendQueue| == 0 {
        return;
      }
      var cands := candidateSendQueue;
      candidateSendQueue := [];
      candidateSendTries := candidateSendTries + 1;
      effects := effects + [SendCandidates(callId, cands)];
    }

    /** `candsSent`: the batch went out; reset the counter and flush what queued up meanwhile. */
    method CandsSent()
      modifies this
      ensures Queue() == Drain(old(Queue()).(tries := 0)).0
      ensures Fields() == old(Fields()).(
        candidateSendQueue := [],
        candidateSendTries := if |old(candidateSendQueue)| == 0 then 0 else 1,
        effects := old(effects) + if |old(candidateSendQueue)| == 0 then []
                                  else [SendCandidates(callId, old(candidateSendQueue))])
    {
      candidateSendTries := 0;
      SendCandidateQueue();
    }

    /**
     * `candsSendFailed(cands)`: put the failed batch back at the end of the
     * queue, then either give up (resetting the counter) or schedule a retry.
     */
    method CandsSendFailed(cands: seq<Candidate>)
      modifies this
      ensures Queue() == Failed(old(Queue()), cands).0
      ensures Fields() == old(Fields()).(
        candidateSendQueue := Failed(old(Queue()), cands).0.pending,
        candidateSendTries := Failed(old(Queue()), cands).0.tries,
        effects := old(effects) + match Failed(old(Queue()), cands).1
                                  case None => []
                                  case Some(d) => [Schedule(FlushCandidates, d)])
    {
      for i := 0 to |cands|
        invariant candidateSendQueue == old(candidateSendQueue) + cands[..i]
        invariant Fields() == old(Fields()).(candidateSendQueue := candidateSendQueue)
      {
        candidateSendQueue := candidateSendQueue + [cands[i]];
        assert cands[..i + 1] == cands[..i] + [cands[i]];
      }
      assert cands[..|cands|] == cands;
      if candidateSendTries > 5 {
        candidateSendTries := 0;
        return;
      }
      var delayMs := Backoff(candidateSendTries);
      candidateSendTries := candidateSendTries + 1;
      effects := effects + [Schedule(FlushCandidates, delayMs)];
    }
  }
}
