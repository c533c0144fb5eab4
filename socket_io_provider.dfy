/**
 * The signaling provider of WebRTC-End/SocketIOProvider.swift.
 *
 * The Socket.IO client is replaced by its status and by what the provider asks
 * of it (emitted frames, connect and disconnect requests); the delegate is
 * replaced by the callbacks it receives. Both go into one trace, in program
 * order, so that the order of a frame and a callback can be stated.
 */
module Signaling {
  import opened Wrappers
  import opened Json
  import opened MessageCodec

  /** The Socket.IO client's `SocketIOStatus`. */
  datatype Status = NotConnected | Disconnected | Connecting | Connected

  /** An `Error` reported by the transport. */
  datatype TransportError = TransportError(description: string)

  /** One element of the `[Any]` argument list that a Socket.IO event handler receives. */
  datatype Item = StringItem(text: Text) | ErrorItem(error: TransportError) | OtherItem

  /** A frame emitted on the socket: its event name and its one string argument. */
  datatype Frame = JoinRoomFrame(room: string) | MessageFrame(text: Text)

  function EventName(f: Frame): string {
    match f
    case JoinRoomFrame(_) => "joinRoom"
    case MessageFrame(_) => "message"
  }

  /** A call of one `SocketProviderDelegate` method on the provider's delegate. */
  datatype Callback<S, C> =
    | DidConnect
    | DidDisconnect
    | DidReceiveData(data: Data)
    | DidEncounterError(error: TransportError)
    | CandidateReceived(candidate: C)
    | SdpReceived(description: S)

  /**
   * One observable step: a frame emitted, a delegate callback, a `socket.connect()`
   * or `socket.disconnect()` request, a reconnect scheduled on a timer, and the
   * `socket.connect()` that such a timer issues when it fires.
   */
  datatype Action<S, C> =
    | Emit(frame: Frame)
    | Notify(callback: Callback<S, C>)
    | SocketConnect
    | SocketDisconnect
    | ScheduleRetry
    | RetryConnect

  function FrameOf<S, C>(a: Action<S, C>): seq<Frame> {
    if a.Emit? then [a.frame] else []
  }

  function CallbackOf<S, C>(a: Action<S, C>): seq<Callback<S, C>> {
    if a.Notify? then [a.callback] else []
  }

  function RetryDelta<S, C>(a: Action<S, C>): int {
    match a
    case ScheduleRetry => 1
    case RetryConnect => -1
    case _ => 0
  }

  /** The outbound frame log: the frames of a trace, in order. */
  function Frames<S, C>(t: seq<Action<S, C>>): seq<Frame> {
    if t == [] then [] else Frames(t[..|t| - 1]) + FrameOf(t[|t| - 1])
  }

  /** The callback log: what the delegate received, in order. */
  function Callbacks<S, C>(t: seq<Action<S, C>>): seq<Callback<S, C>> {
    if t == [] then [] else Callbacks(t[..|t| - 1]) + CallbackOf(t[|t| - 1])
  }

  /** Reconnect attempts scheduled and not yet fired. */
  function Pending<S, C>(t: seq<Action<S, C>>): int {
    if t == [] then 0 else Pending(t[..|t| - 1]) + RetryDelta(t[|t| - 1])
  }

  /** The frame log of a concatenation is the concatenation of the frame logs. */
  lemma {:induction false} FramesAppend<S, C>(a: seq<Action<S, C>>, b: seq<Action<S, C>>)
    ensures Frames(a + b) == Frames(a) + Frames(b)
  {
    if b == [] {
      assert a + b == a;
    } else {
      var b' := b[..|b| - 1];
      assert (a + b)[..|a + b| - 1] == a + b';
      assert (a + b)[|a + b| - 1] == b[|b| - 1];
      FramesAppend(a, b');
    }
  }

  /** The callback log of a concatenation is the concatenation of the callback logs. */
  lemma {:induction false} CallbacksAppend<S, C>(a: seq<Action<S, C>>, b: seq<Action<S, C>>)
    ensures Callbacks(a + b) == Callbacks(a) + Callbacks(b)
  {
    if b == [] {
      assert a + b == a;
    } else {
      var b' := b[..|b| - 1];
      assert (a + b)[..|a + b| - 1] == a + b';
      assert (a + b)[|a + b| - 1] == b[|b| - 1];
      CallbacksAppend(a, b');
    }
  }

  /** The pending retries of a concatenation add up. */
  lemma {:induction false} PendingAppend<S, C>(a: seq<Action<S, C>>, b: seq<Action<S, C>>)
    ensures Pending(a + b) == Pending(a) + Pending(b)
  {
    if b == [] {
      assert a + b == a;
    } else {
      var b' := b[..|b| - 1];
      assert (a + b)[..|a + b| - 1] == a + b';
      assert (a + b)[|a + b| - 1] == b[|b| - 1];
      PendingAppend(a, b');
    }
  }

  /** The three logs are read off a trace piece by piece. */
  lemma ViewsAppend<S, C>(a: seq<Action<S, C>>, b: seq<Action<S, C>>)
    ensures Frames(a + b) == Frames(a) + Frames(b)
    ensures Callbacks(a + b) == Callbacks(a) + Callbacks(b)
    ensures Pending(a + b) == Pending(a) + Pending(b)
  {
    FramesAppend(a, b);
    CallbacksAppend(a, b);
    PendingAppend(a, b);
  }

  /** The logs of a one-action trace. */
  lemma ViewsSingle<S, C>(a: Action<S, C>)
    ensures Frames([a]) == FrameOf(a) && Callbacks([a]) == CallbackOf(a) && Pending([a]) == RetryDelta(a)
  {
    assert [a][..0] == [];
  }

  /** Every join frame in the trace names `room`. */
  ghost predicate JoinsCarry<S, C>(t: seq<Action<S, C>>, room: string) {
    forall i :: 0 <= i < |t| && t[i].Emit? && t[i].frame.JoinRoomFrame? ==> t[i].frame.room == room
  }

  /** Appending an action that is not a join frame for another room keeps every join frame on `room`. */
  lemma JoinsCarrySnoc<S, C>(t: seq<Action<S, C>>, a: Action<S, C>, room: string)
    requires JoinsCarry(t, room)
    requires a.Emit? && a.frame.JoinRoomFrame? ==> a.frame.room == room
    ensures JoinsCarry(t + [a], room)
  {
    forall i | 0 <= i < |t + [a]| && (t + [a])[i].Emit? && (t + [a])[i].frame.JoinRoomFrame?
      ensures (t + [a])[i].frame.room == room
    {
      if i < |t| {
        assert (t + [a])[i] == t[i];
      }
    }
  }

  /** Read off the outbound frame log: when the trace's join frames carry `room`, so does every join frame in `Frames(t)`. */
  lemma {:induction false} JoinFramesCarry<S, C>(t: seq<Action<S, C>>, room: string)
    requires JoinsCarry(t, room)
    ensures forall i :: 0 <= i < |Frames(t)| && Frames(t)[i].JoinRoomFrame? ==> Frames(t)[i].room == room
  {
    if t != [] {
      var t' := t[..|t| - 1];
      assert JoinsCarry(t', room) by {
        forall i | 0 <= i < |t'| && t'[i].Emit? && t'[i].frame.JoinRoomFrame?
          ensures t'[i].frame.room == room
        {
          assert t'[i] == t[i];
        }
      }
      JoinFramesCarry(t', room);
    }
  }

  /**
   * What `send(data:)` emits: one "message" frame holding the data's text, and
   * only when the socket is connected and the data is valid UTF-8; otherwise nothing.
   */
  function SendFrames(status: Status, data: Data): (fs: seq<Frame>)
    ensures fs != [] <==> status == Connected && StringFromData(data).Some?
    ensures fs != [] ==> fs == [MessageFrame(StringFromData(data).value)] && EventName(fs[0]) == "message"
  {
    if status == Connected then
      match StringFromData(data)
      case Some(text) => [MessageFrame(text)]
      case None => []
    else []
  }

  /** What `handleEvent(data:)` forwards: the first argument's bytes, when that argument is a string. */
  function ForwardedData(items: seq<Item>): (r: Option<Data>)
    ensures r.Some? <==> |items| > 0 && items[0].StringItem?
    ensures r.Some? ==> StringFromData(r.value) == Some(items[0].text)
  {
    if |items| > 0 && items[0].StringItem? then Some(DataFromString(items[0].text)) else None
  }

  /** What the error handler forwards: the first argument, when that argument is an error. */
  function ForwardedError(items: seq<Item>): (r: Option<TransportError>)
    ensures r.Some? <==> |items| > 0 && items[0].ErrorItem?
    ensures r.Some? ==> r.value == items[0].error
  {
    if |items| > 0 && items[0].ErrorItem? then Some(items[0].error) else None
  }

  /**
   * What `socket(_:didReceiveData:)` delivers: nothing when the data does not
   * decode, and otherwise exactly one callback, chosen by the decoded variant.
   */
  function ReceiveCallback<S, C>(cs: Codecs<S, C>, data: Data): (r: Option<Callback<S, C>>)
    ensures r.None? <==> DecodeData(cs, data).Failure?
    ensures r.Some? ==> (r.value.CandidateReceived? <==> DecodeData(cs, data).value.Candidate?)
    ensures r.Some? ==> (r.value.SdpReceived? <==> DecodeData(cs, data).value.Sdp?)
    ensures r.Some? && r.value.CandidateReceived? ==> DecodeData(cs, data).value.candidate == r.value.candidate
    ensures r.Some? && r.value.SdpReceived? ==> DecodeData(cs, data).value.description == r.value.description
  {
    match DecodeData(cs, data)
    case Failure(_) => None
    case Success(Candidate(c)) => Some(CandidateReceived(c))
    case Success(Sdp(s)) => Some(SdpReceived(s))
  }

  /** The callback that a message routes to. */
  function Routed<S, C>(m: Message<S, C>): Callback<S, C> {
    match m
    case Sdp(s) => SdpReceived(s)
    case Candidate(c) => CandidateReceived(c)
  }

  /**
   * End to end: the frame that `sendSdp`/`sendCandidate` emit for m on a connected
   * socket, handed back to `handleEvent` and then to `socket(_:didReceiveData:)`,
   * yields exactly the callback for m with the same payload.
   */
  lemma EndToEnd<S(!new), C(!new)>(cs: Codecs<S, C>, m: Message<S, C>)
    requires RoundTrips(cs)
    ensures |SendFrames(Connected, EncodeData(cs, m))| == 1
    ensures var f := SendFrames(Connected, EncodeData(cs, m))[0];
            f.MessageFrame? &&
            var forwarded := ForwardedData([StringItem(f.text)]);
            forwarded.Some? && ReceiveCallback(cs, forwarded.value) == Some(Routed(m))
  {
    DataRoundTrip(cs, m);
  }

  class SocketIOProvider<S, C> {
    /** The JSON encoder and decoder with the payloads' codecs. */
    const codecs: Codecs<S, C>
    /** `private var roomName`, which nothing writes after `init`. */
    const roomName: string
    /** `socket.status`: moved by the Socket.IO client, read by `send(data:)`. */
    var status: Status
    /** Whether the weak `delegate` is set. */
    var hasDelegate: bool
    var pendingRetries: nat
    var trace: seq<Action<S, C>>

    /** Every join frame carries the provider's room, and the retry counter matches the trace. */
    ghost predicate Valid()
      reads this
    {
      JoinsCarry(trace, roomName) && pendingRetries == Pending(trace)
    }

    /** What `self.delegate?.…` records: nothing when the delegate is nil. */
    function Notified(cb: Option<Callback<S, C>>): (t: seq<Action<S, C>>)
      reads this
    {
      if hasDelegate && cb.Some? then [Notify(cb.value)] else []
    }

    /** The callback for data that `handleEvent` forwards, if any. */
    static function DataCallback(d: Option<Data>): Option<Callback<S, C>> {
      if d.Some? then Some(DidReceiveData(d.value)) else None
    }

    /** The callback for an error that the error handler forwards, if any. */
    static function ErrorCallback(e: Option<TransportError>): Option<Callback<S, C>> {
      if e.Some? then Some(DidEncounterError(e.value)) else None
    }

    /** `init(url:roomName:)`: the Socket.IO client starts not connected and the delegate starts nil. */
    constructor (roomName: string, codecs: Codecs<S, C>)
      ensures Valid()
      ensures this.roomName == roomName && this.codecs == codecs
      ensures status == NotConnected && !hasDelegate && pendingRetries == 0 && trace == []
    {
      this.codecs := codecs;
      this.roomName := roomName;
      status := NotConnected;
      hasDelegate := false;
      pendingRetries := 0;
      trace := [];
    }

    /** The `delegate` property's setter. */
    method SetDelegate(attached: bool)
      requires Valid()
      modifies this`hasDelegate
      ensures Valid() && hasDelegate == attached
    {
      hasDelegate := attached;
    }

    /** A status change made by the Socket.IO client itself. */
    method TransportStatusChanged(s: Status)
      requires Valid()
      modifies this`status
      ensures Valid() && status == s
    {
      status := s;
    }

    /** Appends actions that emit no join frame and schedule no retry. */
    method Record(extra: seq<Action<S, C>>)
      requires Valid()
      requires JoinsCarry(extra, roomName) && Pending(extra) == 0
      modifies this`trace
      ensures Valid()
      ensures trace == old(trace) + extra
      ensures Frames(trace) == old(Frames(trace)) + Frames(extra)
      ensures Callbacks(trace) == old(Callbacks(trace)) + Callbacks(extra)
    {
      ViewsAppend(trace, extra);
      trace := trace + extra;
    }

    /** Records one delegate callback, if there is a delegate. */
    method Deliver(cb: Option<Callback<S, C>>)
      requires Valid()
      modifies this`trace
      ensures Valid()
      ensures trace == old(trace) + Notified(cb)
      ensures Frames(trace) == old(Frames(trace))
      ensures Callbacks(trace) == old(Callbacks(trace)) + (if hasDelegate && cb.Some? then [cb.value] else [])
    {
      if hasDelegate && cb.Some? {
        var extra: seq<Action<S, C>> := [Notify(cb.value)];
        ViewsSingle(Notify(cb.value));
        Record(extra);
      }
    }

    /** `connect()`: passes the request to the Socket.IO client. */
    method Connect()
      requires Valid()
      modifies this`trace
      ensures Valid()
      ensures trace == old(trace) + [SocketConnect]
    {
      var extra: seq<Action<S, C>> := [SocketConnect];
      ViewsSingle(extra[0]);
      Record(extra);
    }

    /** `disconnect()`: passes the request to the Socket.IO client. */
    method Disconnect()
      requires Valid()
      modifies this`trace
      ensures Valid()
      ensures trace == old(trace) + [SocketDisconnect]
    {
      var extra: seq<Action<S, C>> := [SocketDisconnect];
      ViewsSingle(extra[0]);
      Record(extra);
    }

    /** `joinRoom()`: emits the "joinRoom" frame with the room name, whatever the status. */
    method JoinRoom()
      requires Valid()
      modifies this`trace
      ensures Valid()
      ensures trace == old(trace) + [Emit(JoinRoomFrame(roomName))]
      ensures Frames(trace) == old(Frames(trace)) + [JoinRoomFrame(roomName)]
      ensures Callbacks(trace) == old(Callbacks(trace))
    {
      var extra: seq<Action<S, C>> := [Emit(JoinRoomFrame(roomName))];
      ViewsSingle(extra[0]);
      ViewsAppend(trace, extra);
      JoinsCarrySnoc(trace, extra[0], roomName);
      trace := trace + extra;
    }

    /** The `.connect` handler: the join frame is emitted, and only then is the delegate told. */
    method OnConnectEvent()
      requires Valid()
      modifies this`trace
      ensures Valid()
      ensures trace == old(trace) + [Emit(JoinRoomFrame(roomName))] + Notified(Some(DidConnect))
      ensures Frames(trace) == old(Frames(trace)) + [JoinRoomFrame(roomName)]
      ensures Callbacks(trace) == old(Callbacks(trace)) + (if hasDelegate then [DidConnect] else [])
    {
      JoinRoom();
      Deliver(Some(DidConnect));
    }

    /** The `.disconnect` handler: tells the delegate, and schedules nothing itself. */
    method OnDisconnectEvent()
      requires Valid()
      modifies this`trace
      ensures Valid()
      ensures trace == old(trace) + Notified(Some(DidDisconnect))
      ensures Frames(trace) == old(Frames(trace)) && pendingRetries == old(pendingRetries)
    {
      Deliver(Some(DidDisconnect));
    }

    /** The "message" handler: hands its arguments to `handleEvent`. */
    method OnMessageEvent(items: seq<Item>)
      requires Valid()
      modifies this`trace
      ensures Valid()
      ensures trace == old(trace) + Notified(DataCallback(ForwardedData(items)))
    {
      HandleEvent(items);
    }

    /** The `.error` handler: forwards the first argument when it is an error. */
    method OnErrorEvent(items: seq<Item>)
      requires Valid()
      modifies this`trace
      ensures Valid()
      ensures trace == old(trace) + Notified(ErrorCallback(ForwardedError(items)))
    {
      Deliver(ErrorCallback(ForwardedError(items)));
    }

    /** `handleEvent(data:)`: forwards the first argument's bytes when it is a string, and otherwise nothing. */
    method HandleEvent(items: seq<Item>)
      requires Valid()
      modifies this`trace
      ensures Valid()
      ensures trace == old(trace) + Notified(DataCallback(ForwardedData(items)))
      ensures Frames(trace) == old(Frames(trace))
      ensures (|items| == 0 || !items[0].StringItem?) ==> trace == old(trace)
    {
      Deliver(DataCallback(ForwardedData(items)));
    }

    /** `send(data:)`: one "message" frame when connected and the data is UTF-8 text; otherwise the log is unchanged. */
    method Send(data: Data)
      requires Valid()
      modifies this`trace
      ensures Valid()
      ensures trace == old(trace) + if SendFrames(status, data) == [] then [] else [Emit(SendFrames(status, data)[0])]
      ensures Frames(trace) == old(Frames(trace)) + SendFrames(status, data)
      ensures Callbacks(trace) == old(Callbacks(trace))
      ensures status != Connected ==> trace == old(trace)
    {
      if status == Connected {
        match StringFromData(data)
        case Some(text) =>
          var extra: seq<Action<S, C>> := [Emit(MessageFrame(text))];
          ViewsSingle(extra[0]);
          Record(extra);
        case None =>
      }
    }

    /** `sendCandidate(candidate:)`: sends exactly the encoding of `.candidate(c)`, through `send(data:)`. */
    method SendCandidate(c: C)
      requires Valid()
      modifies this`trace
      ensures Valid()
      ensures Frames(trace) == old(Frames(trace)) + SendFrames(status, EncodeData(codecs, Candidate(c)))
      ensures Callbacks(trace) == old(Callbacks(trace))
      ensures status == Connected ==> trace == old(trace) + [Emit(MessageFrame(Document(Encode(codecs, Candidate(c)))))]
      ensures status != Connected ==> trace == old(trace)
    {
      Send(EncodeData(codecs, Candidate(c)));
    }

    /** `sendSdp(sdp:)`: sends exactly the encoding of `.sdp(s)`, through `send(data:)`. */
    method SendSdp(s: S)
      requires Valid()
      modifies this`trace
      ensures Valid()
      ensures Frames(trace) == old(Frames(trace)) + SendFrames(status, EncodeData(codecs, Sdp(s)))
      ensures Callbacks(trace) == old(Callbacks(trace))
      ensures status == Connected ==> trace == old(trace) + [Emit(MessageFrame(Document(Encode(codecs, Sdp(s)))))]
      ensures status != Connected ==> trace == old(trace)
    {
      Send(EncodeData(codecs, Sdp(s)));
    }

    /** `socket(_:didEncounterError:)`: passes the error on to the delegate. */
    method SocketDidEncounterError(error: TransportError)
      requires Valid()
      modifies this`trace
      ensures Valid()
      ensures trace == old(trace) + Notified(Some(DidEncounterError(error)))
    {
      Deliver(Some(DidEncounterError(error)));
    }

    /** `socketCandidate(candidate:)`: passes the candidate on to the delegate. */
    method SocketCandidate(c: C)
      requires Valid()
      modifies this`trace
      ensures Valid()
      ensures trace == old(trace) + Notified(Some(CandidateReceived(c)))
    {
      Deliver(Some(CandidateReceived(c)));
    }

    /** `socketSdp(sdp:)`: passes the description on to the delegate. */
    method SocketSdp(s: S)
      requires Valid()
      modifies this`trace
      ensures Valid()
      ensures trace == old(trace) + Notified(Some(SdpReceived(s)))
    {
      Deliver(Some(SdpReceived(s)));
    }

    /** `socketDidConnect(_:)`: passes the connect on to the delegate. */
    method SocketDidConnect()
      requires Valid()
      modifies this`trace
      ensures Valid()
      ensures trace == old(trace) + Notified(Some(DidConnect))
    {
      Deliver(Some(DidConnect));
    }

    /** `socketDidDisconnect(_:)`: tells the delegate first, then schedules exactly one reconnect attempt. */
    method SocketDidDisconnect()
      requires Valid()
      modifies this`trace, this`pendingRetries
      ensures Valid()
      ensures trace == old(trace) + Notified(Some(DidDisconnect)) + [ScheduleRetry]
      ensures pendingRetries == old(pendingRetries) + 1
      ensures Frames(trace) == old(Frames(trace))
      ensures Callbacks(trace) == old(Callbacks(trace)) + (if hasDelegate then [DidDisconnect] else [])
    {
      Deliver(Some(DidDisconnect));
      AddRetry();
    }

    /** Schedules one reconnect attempt: the `asyncAfter` call of `socketDidDisconnect(_:)`. */
    method AddRetry()
      requires Valid()
      modifies this`trace, this`pendingRetries
      ensures Valid()
      ensures trace == old(trace) + [ScheduleRetry]
      ensures pendingRetries == old(pendingRetries) + 1
      ensures Frames(trace) == old(Frames(trace)) && Callbacks(trace) == old(Callbacks(trace))
    {
      var extra: seq<Action<S, C>> := [ScheduleRetry];
      ViewsSingle(extra[0]);
      ViewsAppend(trace, extra);
      JoinsCarrySnoc(trace, ScheduleRetry, roomName);
      trace := trace + extra;
      pendingRetries := pendingRetries + 1;
    }

    /** A scheduled reconnect timer fires: one `socket.connect()` for one pending attempt. */
    method RetryTimerFires()
      requires Valid() && pendingRetries > 0
      modifies this`trace, this`pendingRetries
      ensures Valid()
      ensures trace == old(trace) + [RetryConnect]
      ensures pendingRetries == old(pendingRetries) - 1
    {
      var extra: seq<Action<S, C>> := [RetryConnect];
      ViewsSingle(extra[0]);
      ViewsAppend(trace, extra);
      JoinsCarrySnoc(trace, RetryConnect, roomName);
      trace := trace + extra;
      pendingRetries := pendingRetries - 1;
    }

    /**
     * `socket(_:didReceiveData:)`: decodes the data; a failure delivers nothing,
     * a candidate goes to `socketCandidate` only and a description to `socketSdp` only.
     */
    method SocketDidReceiveData(data: Data)
      requires Valid()
      modifies this`trace
      ensures Valid()
      ensures trace == old(trace) + Notified(ReceiveCallback(codecs, data))
      ensures DecodeData(codecs, data).Failure? ==> trace == old(trace)
      ensures Frames(trace) == old(Frames(trace))
      ensures hasDelegate && DecodeData(codecs, data).Success? ==>
                Callbacks(trace) == old(Callbacks(trace)) + [Routed(DecodeData(codecs, data).value)]
    {
      match DecodeData(codecs, data)
      case Failure(_) =>
      case Success(Candidate(c)) =>
        Deliver(Some(CandidateReceived(c)));
      case Success(Sdp(s)) =>
        Deliver(Some(SdpReceived(s)));
    }
  }

  /**
   * A client of the provider: nothing is sent before the connection, and on
   * connect the join frame comes before the first description.
   */
  method ConnectScenario<S, C>(cs: Codecs<S, C>, room: string, offer: S)
  {
    var p := new SocketIOProvider(room, cs);
    p.SetDelegate(true);
    p.SendSdp(offer);
    assert p.trace == [];
    p.TransportStatusChanged(Connected);
    p.OnConnectEvent();
    ghost var joined := Frames(p.trace);
    assert joined == [JoinRoomFrame(room)];
    assert Callbacks(p.trace) == [DidConnect];
    p.SendSdp(offer);
    assert Frames(p.trace) == joined + [MessageFrame(Document(Encode(cs, Sdp(offer))))];
  }

  /** A client of the provider: one disconnect schedules one retry, and firing it leaves none pending. */
  method RetryScenario<S, C>(cs: Codecs<S, C>, room: string)
  {
    var p := new SocketIOProvider(room, cs);
    p.SocketDidDisconnect();
    assert p.pendingRetries == 1;
    p.RetryTimerFires();
    assert p.pendingRetries == 0;
    assert p.trace == [ScheduleRetry, RetryConnect];
  }
}
