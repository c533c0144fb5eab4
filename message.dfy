/**
 * The signaling message envelope of WebRTC-End/Message.swift: a two-variant
 * tagged union written as a keyed JSON object `{"type": tag, "payload": p}`.
 *
 * The payload types (`SessionDescription`, `IceCandidate`) are not part of this
 * model; they are the type parameters S and C, each with its own payload codec.
 */
module MessageCodec {
  import opened Wrappers
  import opened Json

  /** `enum Message`: a session description or an ICE candidate. */
  datatype Message<S, C> = Sdp(description: S) | Candidate(candidate: C)

  /** `enum CodingKeys`: the only two keys of the envelope. */
  datatype CodingKey = TypeKey | PayloadKey

  /** The raw value of a coding key, the string that appears in the JSON object. */
  function KeyName(k: CodingKey): string {
    match k
    case TypeKey => "type"
    case PayloadKey => "payload"
  }

  const SdpTag: string := "SessionDescription"
  const CandidateTag: string := "IceCandidate"

  /**
   * Why a decode fails. `UnknownType` is `Message.DecodeError.unknownType`; the
   * other cases stand for the `DecodingError`s that Foundation's decoder throws
   * from the `try` expressions of `init(from:)`, and `DataCorrupted` for bytes
   * that are not JSON text at all.
   */
  datatype DecodeError =
    | UnknownType
    | NotKeyed
    | KeyNotFound(key: CodingKey)
    | ValueNotFound(key: CodingKey)
    | TypeMismatch(key: CodingKey)
    | InvalidPayload
    | DataCorrupted

  /** The `Codable` conformance of one payload type. */
  datatype PayloadCodec<!P> = PayloadCodec(encode: P -> Value, decode: Value -> Option<P>)

  /** The payload codecs of both variants. */
  datatype Codecs<!S, !C> = Codecs(sdp: PayloadCodec<S>, candidate: PayloadCodec<C>)

  /** A payload decoder inverts its encoder. */
  ghost predicate Inverts<P(!new)>(c: PayloadCodec<P>) {
    forall p :: c.decode(c.encode(p)) == Some(p)
  }

  ghost predicate RoundTrips<S(!new), C(!new)>(cs: Codecs<S, C>) {
    Inverts(cs.sdp) && Inverts(cs.candidate)
  }

  /** The discriminant written for each variant; distinct variants get distinct tags. */
  function Tag<S, C>(m: Message<S, C>): (t: string)
    ensures t == SdpTag <==> m.Sdp?
    ensures t == CandidateTag <==> m.Candidate?
  {
    match m
    case Sdp(_) => SdpTag
    case Candidate(_) => CandidateTag
  }

  /** The payload encoder's output for the value a message carries. */
  function EncodePayload<S, C>(cs: Codecs<S, C>, m: Message<S, C>): Value {
    match m
    case Sdp(s) => cs.sdp.encode(s)
    case Candidate(c) => cs.candidate.encode(c)
  }

  /** `encode(to:)`: exactly the two coding keys, the variant's tag under "type" and its payload under "payload". */
  function Encode<S, C>(cs: Codecs<S, C>, m: Message<S, C>): (v: Value)
    ensures v.Object? && v.fields.Keys == {KeyName(TypeKey), KeyName(PayloadKey)}
    ensures v.fields[KeyName(TypeKey)] == Str(Tag(m))
    ensures v.fields[KeyName(PayloadKey)] == EncodePayload(cs, m)
  {
    Object(map[KeyName(TypeKey) := Str(Tag(m)), KeyName(PayloadKey) := EncodePayload(cs, m)])
  }

  /** `container.decode(String.self, forKey: k)`. */
  function DecodeString(fields: map<string, Value>, k: CodingKey): Result<string, DecodeError> {
    if KeyName(k) !in fields then Failure(KeyNotFound(k))
    else match fields[KeyName(k)]
      case Str(s) => Success(s)
      case Null => Failure(ValueNotFound(k))
      case _ => Failure(TypeMismatch(k))
  }

  /** `container.decode(P.self, forKey: .payload)`. */
  function DecodePayload<P>(fields: map<string, Value>, c: PayloadCodec<P>): Result<P, DecodeError> {
    if KeyName(PayloadKey) !in fields then Failure(KeyNotFound(PayloadKey))
    else match c.decode(fields[KeyName(PayloadKey)])
      case Some(p) => Success(p)
      case None => Failure(InvalidPayload)
  }

  /** `v` is an envelope whose "type" is a string other than the two known tags. */
  predicate HasUnknownTag(v: Value) {
    v.Object? && KeyName(TypeKey) in v.fields && v.fields[KeyName(TypeKey)].Str?
    && v.fields[KeyName(TypeKey)].s != SdpTag && v.fields[KeyName(TypeKey)].s != CandidateTag
  }

  /**
   * `v` fully describes `m`: a keyed object whose "type" is the tag of m's variant
   * and whose "payload" that variant's decoder turns into m's payload.
   */
  ghost predicate Carries<S, C>(cs: Codecs<S, C>, v: Value, m: Message<S, C>) {
    v.Object? && KeyName(TypeKey) in v.fields && v.fields[KeyName(TypeKey)] == Str(Tag(m))
    && KeyName(PayloadKey) in v.fields
    && match m
       case Sdp(s) => cs.sdp.decode(v.fields[KeyName(PayloadKey)]) == Some(s)
       case Candidate(c) => cs.candidate.decode(v.fields[KeyName(PayloadKey)]) == Some(c)
  }

  /**
   * `init(from:)`: read "type" first, then decode "payload" with the decoder its
   * tag selects. No partial result: a success carries a fully decoded payload,
   * and an unknown tag fails with `UnknownType` and with nothing else.
   */
  function Decode<S, C>(cs: Codecs<S, C>, v: Value): (r: Result<Message<S, C>, DecodeError>)
    ensures r.Success? ==> Carries(cs, v, r.value)
    ensures r == Failure(UnknownType) <==> HasUnknownTag(v)
  {
    match v
    case Object(fields) =>
      var tag :- DecodeString(fields, TypeKey);
      if tag == SdpTag then
        var s :- DecodePayload(fields, cs.sdp);
        Success(Sdp(s))
      else if tag == CandidateTag then
        var c :- DecodePayload(fields, cs.candidate);
        Success(Candidate(c))
      else
        Failure(UnknownType)
    case _ => Failure(NotKeyed)
  }

  /** `JSONEncoder().encode(message)`. */
  function EncodeData<S, C>(cs: Codecs<S, C>, m: Message<S, C>): Data {
    Serialize(Encode(cs, m))
  }

  /** `JSONDecoder().decode(Message.self, from: data)`. */
  function DecodeData<S, C>(cs: Codecs<S, C>, d: Data): (r: Result<Message<S, C>, DecodeError>)
    ensures Parse(d).None? ==> r == Failure(DataCorrupted)
    ensures r.Success? ==> Parse(d).Some? && Carries(cs, Parse(d).value, r.value)
    ensures r == Failure(UnknownType) <==> Parse(d).Some? && HasUnknownTag(Parse(d).value)
  {
    match Parse(d)
    case None => Failure(DataCorrupted)
    case Some(v) => Decode(cs, v)
  }

  /** Every value that fully describes m decodes to m; with Decode's contract, Decode(v) == Success(m) iff Carries(v, m). */
  lemma DecodeComplete<S, C>(cs: Codecs<S, C>, v: Value, m: Message<S, C>)
    requires Carries(cs, v, m)
    ensures Decode(cs, v) == Success(m)
  {
    match m
    case Sdp(s) =>
      assert DecodeString(v.fields, TypeKey) == Success(SdpTag);
      assert DecodePayload(v.fields, cs.sdp) == Success(s);
    case Candidate(c) =>
      assert DecodeString(v.fields, TypeKey) == Success(CandidateTag);
      assert DecodePayload(v.fields, cs.candidate) == Success(c);
  }

  /** An envelope tagged "SessionDescription" decodes to `.sdp(p)` exactly when its payload decodes to p. */
  lemma DecodeSessionDescription<S, C>(cs: Codecs<S, C>, fields: map<string, Value>)
    requires KeyName(TypeKey) in fields && fields[KeyName(TypeKey)] == Str(SdpTag)
    ensures Decode(cs, Object(fields)).Success? <==>
              KeyName(PayloadKey) in fields && cs.sdp.decode(fields[KeyName(PayloadKey)]).Some?
    ensures Decode(cs, Object(fields)).Success? ==>
              Decode(cs, Object(fields)).value == Sdp(cs.sdp.decode(fields[KeyName(PayloadKey)]).value)
  {
    assert DecodeString(fields, TypeKey) == Success(SdpTag);
  }

  /** An envelope tagged "IceCandidate" decodes to `.candidate(p)` exactly when its payload decodes to p. */
  lemma DecodeIceCandidate<S, C>(cs: Codecs<S, C>, fields: map<string, Value>)
    requires KeyName(TypeKey) in fields && fields[KeyName(TypeKey)] == Str(CandidateTag)
    ensures Decode(cs, Object(fields)).Success? <==>
              KeyName(PayloadKey) in fields && cs.candidate.decode(fields[KeyName(PayloadKey)]).Some?
    ensures Decode(cs, Object(fields)).Success? ==>
              Decode(cs, Object(fields)).value == Candidate(cs.candidate.decode(fields[KeyName(PayloadKey)]).value)
  {
    assert DecodeString(fields, TypeKey) == Success(CandidateTag);
  }

  /**
   * The errors of a failed read: a missing "type" key, or a known tag whose
   * payload is missing or does not decode, makes the whole decode fail.
   */
  lemma DecodeFailures<S, C>(cs: Codecs<S, C>, fields: map<string, Value>)
    ensures KeyName(TypeKey) !in fields ==> Decode(cs, Object(fields)) == Failure(KeyNotFound(TypeKey))
    ensures KeyName(TypeKey) in fields && fields[KeyName(TypeKey)] in {Str(SdpTag), Str(CandidateTag)} ==>
              (KeyName(PayloadKey) !in fields ==> Decode(cs, Object(fields)) == Failure(KeyNotFound(PayloadKey)))
    ensures KeyName(TypeKey) in fields && fields[KeyName(TypeKey)] == Str(SdpTag) &&
            KeyName(PayloadKey) in fields && cs.sdp.decode(fields[KeyName(PayloadKey)]).None? ==>
              Decode(cs, Object(fields)) == Failure(InvalidPayload)
    ensures KeyName(TypeKey) in fields && fields[KeyName(TypeKey)] == Str(CandidateTag) &&
            KeyName(PayloadKey) in fields && cs.candidate.decode(fields[KeyName(PayloadKey)]).None? ==>
              Decode(cs, Object(fields)) == Failure(InvalidPayload)
  {
  }

  /** Round trip: decoding an encoded message gives it back, given payload codecs that round-trip. */
  lemma RoundTrip<S(!new), C(!new)>(cs: Codecs<S, C>, m: Message<S, C>)
    requires RoundTrips(cs)
    ensures Decode(cs, Encode(cs, m)) == Success(m)
  {
    var v := Encode(cs, m);
    match m
    case Sdp(s) => assert cs.sdp.decode(cs.sdp.encode(s)) == Some(s);
    case Candidate(c) => assert cs.candidate.decode(cs.candidate.encode(c)) == Some(c);
    DecodeComplete(cs, v, m);
  }

  /** The same round trip through the encoder's bytes and the decoder's parser. */
  lemma DataRoundTrip<S(!new), C(!new)>(cs: Codecs<S, C>, m: Message<S, C>)
    requires RoundTrips(cs)
    ensures DecodeData(cs, EncodeData(cs, m)) == Success(m)
  {
    RoundTrip(cs, m);
  }

  /** Incoming data decodes to m exactly when it parses to a value that fully describes m. */
  lemma DecodeDataExact<S, C>(cs: Codecs<S, C>, d: Data, m: Message<S, C>)
    ensures DecodeData(cs, d) == Success(m) <==> Parse(d).Some? && Carries(cs, Parse(d).value, m)
  {
    if Parse(d).Some? && Carries(cs, Parse(d).value, m) {
      DecodeComplete(cs, Parse(d).value, m);
    }
  }

  /** The two variants never share an encoding, whatever the payloads: their tags differ. */
  lemma VariantsDistinct<S, C>(cs: Codecs<S, C>, s: S, c: C)
    ensures Encode(cs, Sdp(s)) != Encode(cs, Candidate(c))
  {
  }

  /** Encoding is injective when the payload codecs round-trip. */
  lemma EncodeInjective<S(!new), C(!new)>(cs: Codecs<S, C>, m1: Message<S, C>, m2: Message<S, C>)
    requires RoundTrips(cs)
    requires Encode(cs, m1) == Encode(cs, m2)
    ensures m1 == m2
  {
    RoundTrip(cs, m1);
    RoundTrip(cs, m2);
  }
}
