# Signaling envelope and Socket.IO provider of WebRTC-End, in Dafny

This project models the signaling layer of the WebRTC-End iOS app. That layer has two parts:

- **The message envelope** (`MessageCodec`, from `Message.swift`). A `Message` is either `.sdp(SessionDescription)` or `.candidate(IceCandidate)`. On the wire it is a keyed object with exactly two keys: `"type"`, holding the tag `"SessionDescription"` or `"IceCandidate"`, and `"payload"`, holding that variant's payload. Decoding reads `"type"` first and then decodes `"payload"` with the decoder that the tag selects. Any other tag fails with `unknownType`.
- **The signaling provider** (`Signaling.SocketIOProvider`, from `SocketIOProvider.swift`). It holds a room name and the Socket.IO client's status. Its Socket.IO event handlers do four things:
  - on connect, emit a `"joinRoom"` frame and then tell the delegate;
  - send "message" frames only while the client is connected;
  - wrap outgoing descriptions and candidates in the envelope;
  - decode incoming frames and route each message to one delegate callback.

  The provider also implements the delegate protocol itself. Those methods forward to its own delegate, and `socketDidDisconnect` also schedules a reconnect. The model takes that delegate to be another object (see `SetDelegate` under "## Left out").

How the model is built:

- JSON is modelled as structured values (`Json.Value`), not bytes. A Swift `String` of JSON text is `Json.Text`: either `Document(v)`, the text of value `v`, or `Unparsable`. A `Data` buffer is `Json.Data`: either `Utf8(text)` or `InvalidUtf8`. `JSONEncoder`, `JSONDecoder` and the UTF-8 conversions become the small functions of module `Json`.
- The payload types `SessionDescription` and `IceCandidate` are the type parameters `S` and `C`. Each comes with a `PayloadCodec` (an encoder to `Value` and a decoder from it). The round-trip lemmas assume `RoundTrips(cs)`: each payload decoder inverts its encoder.
- The Socket.IO client and the delegate are replaced by one `trace` of `Action`s, kept in program order. An action is one of: a frame emitted, a delegate callback, a `socket.connect()` or `socket.disconnect()` request, a scheduled reconnect, or the `socket.connect()` issued when that reconnect timer fires. `Frames(trace)` is the outbound frame log. `Callbacks(trace)` is what the delegate received. `Pending(trace)` counts reconnects scheduled and not yet fired.
- The object invariant `Valid()` says two things. Every `"joinRoom"` frame in the trace names the provider's `roomName`. The `pendingRetries` counter equals `Pending(trace)`. `roomName` is a `const`, as the Swift field is written only in `init`, so every join frame carries the room given at construction.
- The delegate is a `hasDelegate` flag. `self.delegate?.…` records a callback only when it is set.
- The status is changed only by `TransportStatusChanged`. That method stands for the Socket.IO client's own transitions, which belong to the library.
- `ConnectScenario` and `RetryScenario` are two client methods. They show what a caller can conclude from the contracts alone.

What the code does not do:

- `connect()` adds no guard of its own: every call reaches the Socket.IO client as one connect request.
- `send(data:)` while not connected raises no error and calls no delegate method. It only logs, so the model records nothing.
- `disconnect()` does not suppress the reconnect. A reconnect is scheduled only by the provider's own `socketDidDisconnect(_:)`, not by its `.disconnect` handler.
- The view controller installs itself as the delegate. The provider's delegate-protocol methods (decode, route, reconnect) are therefore modelled as methods that can be called. The model does not claim that the running app reaches them.

## Model

| member | source | states |
|---|---|---|
| MessageCodec.Tag | WebRTC-End/Message.swift:32-39 | the tag is "SessionDescription" exactly for `.sdp` and "IceCandidate" exactly for `.candidate`, so distinct variants get distinct tags |
| MessageCodec.Encode | WebRTC-End/Message.swift:30-40 | the encoding is a keyed object whose keys are exactly "type" and "payload"; "type" holds the variant's tag and "payload" holds that payload encoder's output |
| MessageCodec.Decode | WebRTC-End/Message.swift:17-28 | a success fully describes its message: type is its tag and the payload decodes to its payload; the result is `UnknownType` if and only if "type" is a string other than the two tags |
| MessageCodec.DecodeComplete | WebRTC-End/Message.swift:17-28 | every value that fully describes m decodes to m; with Decode's contract, decoding to m and describing m are equivalent |
| MessageCodec.DecodeSessionDescription | WebRTC-End/Message.swift:19-22 | with the tag "SessionDescription", decoding succeeds exactly when "payload" is present and decodes to some p, and the result is `.sdp(p)` |
| MessageCodec.DecodeIceCandidate | WebRTC-End/Message.swift:23-24 | with the tag "IceCandidate", decoding succeeds exactly when "payload" is present and decodes to some p, and the result is `.candidate(p)` |
| MessageCodec.DecodeFailures | WebRTC-End/Message.swift:18-24 | no partial result: a missing "type" key fails with KeyNotFound(type); a known tag with a missing payload fails with KeyNotFound(payload); a payload that does not decode fails with InvalidPayload |
| MessageCodec.RoundTrip | WebRTC-End/Message.swift:17-40 | decode(encode(m)) == m for every message, given payload codecs that round-trip |
| MessageCodec.DataRoundTrip | WebRTC-End/SocketIOProvider.swift:140-147 | the same round trip through the JSON encoder's output and the JSON decoder used on incoming data |
| MessageCodec.DecodeData | WebRTC-End/SocketIOProvider.swift:141-147 | data that is not UTF-8 JSON fails with DataCorrupted; a success comes from data that parses to a value fully describing the message; the result is UnknownType exactly when the data parses to an envelope with an unknown string tag |
| MessageCodec.DecodeDataExact | WebRTC-End/SocketIOProvider.swift:141-147 | incoming data decodes to m if and only if it parses to a value that fully describes m |
| MessageCodec.VariantsDistinct | WebRTC-End/Message.swift:33-38 | an sdp message and a candidate message never have the same encoding, whatever their payloads |
| MessageCodec.EncodeInjective | WebRTC-End/Message.swift:30-40 | equal encodings come from equal messages, given payload codecs that round-trip |
| Signaling.SendFrames | WebRTC-End/SocketIOProvider.swift:96-106 | send emits a frame if and only if the status is connected and the data is UTF-8; that frame is one "message" frame with the data's text |
| Signaling.ForwardedData | WebRTC-End/SocketIOProvider.swift:62-66 | handleEvent forwards data if and only if the first argument is a string; the data is that string's UTF-8 bytes |
| Signaling.ForwardedError | WebRTC-End/SocketIOProvider.swift:54-59 | the error handler forwards an error if and only if the first argument is an error; it forwards that error |
| Signaling.ReceiveCallback | WebRTC-End/SocketIOProvider.swift:140-155 | no callback if and only if decoding fails; otherwise one callback, a candidate callback exactly for a decoded candidate and an sdp callback exactly for a decoded sdp, with the decoded payload |
| Signaling.EndToEnd | WebRTC-End/SocketIOProvider.swift:76-155 | the one frame sent for m on a connected socket, received back through handleEvent and then decoded, yields exactly m's callback with the same payload |
| Signaling.JoinFramesCarry | WebRTC-End/SocketIOProvider.swift:26-33 | when every join action of a trace names the room, every "joinRoom" frame in the outbound frame log names that room; with `Valid()` and no method modifying `roomName`, each join frame carries the construction-time room |
| Signaling.SocketIOProvider.constructor | WebRTC-End/SocketIOProvider.swift:30-35 | a new provider keeps the given room; the client is not connected, the delegate is nil, nothing is pending and the trace is empty |
| Signaling.SocketIOProvider.SetDelegate | WebRTC-End/SocketIOProvider.swift:25 | the delegate property is set or cleared; nothing else changes |
| Signaling.SocketIOProvider.TransportStatusChanged | WebRTC-End/SocketIOProvider.swift:24 | the Socket.IO client's status becomes the given one; nothing else changes |
| Signaling.SocketIOProvider.Connect | WebRTC-End/SocketIOProvider.swift:68-70 | exactly one connect request is passed to the client, and nothing else happens |
| Signaling.SocketIOProvider.Disconnect | WebRTC-End/SocketIOProvider.swift:72-74 | exactly one disconnect request is passed to the client, and nothing else happens |
| Signaling.SocketIOProvider.JoinRoom | WebRTC-End/SocketIOProvider.swift:108-110 | one "joinRoom" frame carrying roomName is emitted, whatever the status; no callback |
| Signaling.SocketIOProvider.OnConnectEvent | WebRTC-End/SocketIOProvider.swift:38-43 | the join frame carrying roomName is appended before the socketDidConnect callback; exactly one frame and at most one callback are added |
| Signaling.SocketIOProvider.OnDisconnectEvent | WebRTC-End/SocketIOProvider.swift:45-48 | only socketDidDisconnect is delivered; no frame is emitted and no retry is scheduled |
| Signaling.SocketIOProvider.OnMessageEvent | WebRTC-End/SocketIOProvider.swift:50-52 | a "message" event goes through handleEvent |
| Signaling.SocketIOProvider.OnErrorEvent | WebRTC-End/SocketIOProvider.swift:54-59 | an error is delivered only when the first argument is an error |
| Signaling.SocketIOProvider.HandleEvent | WebRTC-End/SocketIOProvider.swift:62-66 | the data is delivered only when the first argument is a string; otherwise the trace is unchanged |
| Signaling.SocketIOProvider.Send | WebRTC-End/SocketIOProvider.swift:96-106 | the frame log grows by exactly SendFrames(status, data); when not connected the trace is unchanged; no callback |
| Signaling.SocketIOProvider.SendCandidate | WebRTC-End/SocketIOProvider.swift:76-84 | when connected, exactly the encoding of `.candidate(c)` is emitted as a "message" frame; otherwise nothing; the guard is send's |
| Signaling.SocketIOProvider.SendSdp | WebRTC-End/SocketIOProvider.swift:86-94 | when connected, exactly the encoding of `.sdp(s)` is emitted as a "message" frame; otherwise nothing; the guard is send's |
| Signaling.SocketIOProvider.SocketDidEncounterError | WebRTC-End/SocketIOProvider.swift:115-117 | the error is passed on to the delegate, and nothing else happens |
| Signaling.SocketIOProvider.SocketCandidate | WebRTC-End/SocketIOProvider.swift:119-121 | the candidate is passed on to the delegate, and nothing else happens |
| Signaling.SocketIOProvider.SocketSdp | WebRTC-End/SocketIOProvider.swift:123-125 | the description is passed on to the delegate, and nothing else happens |
| Signaling.SocketIOProvider.SocketDidConnect | WebRTC-End/SocketIOProvider.swift:127-129 | the connect is passed on to the delegate, and nothing else happens |
| Signaling.SocketIOProvider.SocketDidDisconnect | WebRTC-End/SocketIOProvider.swift:130-138 | the delegate is told first; then exactly one reconnect is scheduled and the pending counter grows by one; no frame |
| Signaling.SocketIOProvider.AddRetry | WebRTC-End/SocketIOProvider.swift:133-137 | the `asyncAfter` call schedules exactly one reconnect attempt: one `ScheduleRetry` action, one more pending retry, no frame and no callback |
| Signaling.SocketIOProvider.RetryTimerFires | WebRTC-End/SocketIOProvider.swift:134-137 | a scheduled reconnect fires: one connect request, and one fewer pending retry |
| Signaling.SocketIOProvider.SocketDidReceiveData | WebRTC-End/SocketIOProvider.swift:140-155 | undecodable data leaves the trace unchanged; a decoded message, with a delegate set, adds exactly the callback its variant routes to; never a frame |

## Left out

- The Socket.IO library (`SocketManager`, `SocketIOClient`, how its status moves, what `emit` does on the wire, the `.log` and `.compress` options): it is a foreign library. It is replaced by the `status` field and the trace.
- Bytes and characters: JSON text and UTF-8 are structured values here. `String.data(using: .utf8)` always succeeds, so the failure branch of the guard at SocketIOProvider.swift:63-64 is never taken in the model.
- The `catch` branches of `sendCandidate` and `sendSdp` at SocketIOProvider.swift:81-83 and 91-93: in the model the encoder cannot fail, so they are not modelled.
- The payload types `SessionDescription` and `IceCandidate`, and their conversions to and from `RTCIceCandidate` and `RTCSessionDescription`, are not part of this model. Payloads are abstract, and the round trip of their codecs is a premise.
- MessageCodec.Decode: a payload's own decoding errors collapse into the single case `InvalidPayload`. Swift's decoding-error kinds are kept only for the envelope's own keys.
- JSON numbers are integers; floating-point numbers are not modelled.
- The 2-second `asyncAfter` delay: it is timing. A scheduled retry is a `ScheduleRetry` action plus a counter, and the timer firing is the method `RetryTimerFires`.
- SetDelegate: the delegate is assumed to be an object other than the provider. Each of the provider's own delegate methods (SocketIOProvider.swift:115-138) calls the same method on `self.delegate`, so a provider that is its own delegate would call itself without end, and `socketDidDisconnect` would never reach the reconnect at SocketIOProvider.swift:134. The single-retry contract of `SocketDidDisconnect` holds only for a delegate that is another object.
- `[weak self]` captures and the weak `delegate` reference: they are memory management. The delegate's presence is a flag set with `SetDelegate`; its disappearance on deallocation is not modelled.
- Concurrency: the global dispatch queue runs the retry closure. The model is sequential.
- `print` and `debugPrint` logging: it is I/O.
- `ViewController.swift`: it is UI. Its decode-and-dispatch duplicates the provider's routing; its peer-connection engine calls are external.
