/** The binary framings: the canonical update stream of HTTP catch-up and binary websockets,
    and the client's binary commit.

    UTF-8 validity and the JSON header parser are parameters. */
module WireFormat {
  import opened Wrappers
  import opened Replay

  const WIRE_VERSION: byte := 1
  const FIXED: nat := 1 + 8 + 4 + 4 + 4

  // ---- big-endian integers ----

  function Pow256(w: nat): (r: nat)
    ensures 1 <= r
  {
    if w == 0 then 1 else 256 * Pow256(w - 1)
  }

  function Be(n: nat, w: nat): (b: Bytes)
    ensures |b| == w
  {
    if w == 0 then [] else Be(n / 256, w - 1) + [(n % 256) as byte]
  }

  function UnBe(b: Bytes): nat {
    if b == [] then 0 else UnBe(b[..|b| - 1]) * 256 + b[|b| - 1] as nat
  }

  lemma {:induction false} UnBeBound(b: Bytes)
    ensures UnBe(b) < Pow256(|b|)
  {
    if b != [] {
      UnBeBound(b[..|b| - 1]);
    }
  }

  lemma {:induction false} BeRoundTrip(n: nat, w: nat)
    requires n < Pow256(w)
    ensures UnBe(Be(n, w)) == n
  {
    if w > 0 {
      BeRoundTrip(n / 256, w - 1);
      assert Be(n, w)[..w - 1] == Be(n / 256, w - 1);
    }
  }

  lemma {:induction false} UnBeRoundTrip(b: Bytes)
    ensures Be(UnBe(b), |b|) == b
  {
    if b != [] {
      var front := b[..|b| - 1];
      UnBeRoundTrip(front);
      assert UnBe(b) / 256 == UnBe(front) && UnBe(b) % 256 == b[|b| - 1] as nat;
      assert b == front + [b[|b| - 1]];
    }
  }

  /** Two's complement. */
  function Signed(n: nat, w: nat): int {
    if 2 * n >= Pow256(w) then n - Pow256(w) else n
  }

  predicate FitsSigned(x: int, w: nat) {
    0 - Pow256(w) <= 2 * x < Pow256(w)
  }

  function Unsigned(x: int, w: nat): nat
    requires FitsSigned(x, w)
  {
    if x < 0 then x + Pow256(w) else x
  }

  lemma SignedRoundTrip(x: int, w: nat)
    requires FitsSigned(x, w)
    ensures Unsigned(x, w) < Pow256(w) && Signed(Unsigned(x, w), w) == x
  {
  }

  lemma UnsignedRoundTrip(n: nat, w: nat)
    requires n < Pow256(w)
    ensures FitsSigned(Signed(n, w), w) && Unsigned(Signed(n, w), w) == n
  {
  }

  // ---- envelopes ----

  datatype Envelope = Envelope(seqNo: int, clientEventId: Bytes, schemaVersion: int, yupdate: Bytes)

  type Utf8 = Bytes -> bool

  /** What the row types guarantee: 64-bit sequence, 32-bit schema version, text id. */
  predicate WellTyped(utf8: Utf8, e: Envelope) {
    FitsSigned(e.seqNo, 8) && FitsSigned(e.schemaVersion, 4) && utf8(e.clientEventId)
  }

  function Body(utf8: Utf8, e: Envelope): Bytes
    requires WellTyped(utf8, e)
  {
    [WIRE_VERSION] + Be(Unsigned(e.seqNo, 8), 8) + Be(Unsigned(e.schemaVersion, 4), 4)
    + Be(|e.clientEventId|, 4) + Be(|e.yupdate|, 4) + e.clientEventId + e.yupdate
  }

  /** The frame length must fit its 32-bit prefix. */
  predicate Encodable(e: Envelope) {
    FIXED + |e.clientEventId| + |e.yupdate| < Pow256(4)
  }

  datatype WireError = TooLarge | Truncated | TooShort | UnknownVersion | LengthMismatch | NotText

  function EncodeEnvelope(utf8: Utf8, e: Envelope): Result<Bytes, WireError>
    requires WellTyped(utf8, e)
  {
    if |e.clientEventId| >= Pow256(4) || |e.yupdate| >= Pow256(4) || !Encodable(e) then Failure(TooLarge)
    else Success(Be(|Body(utf8, e)|, 4) + Body(utf8, e))
  }

  function DecodeEnvelope(utf8: Utf8, frame: Bytes): Result<Envelope, WireError> {
    if |frame| < FIXED then Failure(TooShort)
    else if frame[0] != WIRE_VERSION then Failure(UnknownVersion)
    else
      var clientLen, updateLen := UnBe(frame[13..17]), UnBe(frame[17..21]);
      if |frame| != FIXED + clientLen + updateLen then Failure(LengthMismatch)
      else if !utf8(frame[FIXED..FIXED + clientLen]) then Failure(NotText)
      else Success(Envelope(Signed(UnBe(frame[1..9]), 8), frame[FIXED..FIXED + clientLen],
                            Signed(UnBe(frame[9..13]), 4), frame[FIXED + clientLen..]))
  }

  /** The fields of a body sit at their fixed offsets. */
  lemma BodySlices(utf8: Utf8, e: Envelope)
    requires WellTyped(utf8, e)
    ensures var b := Body(utf8, e);
            && |b| == FIXED + |e.clientEventId| + |e.yupdate| && b[0] == WIRE_VERSION
            && b[1..9] == Be(Unsigned(e.seqNo, 8), 8) && b[9..13] == Be(Unsigned(e.schemaVersion, 4), 4)
            && b[13..17] == Be(|e.clientEventId|, 4) && b[17..21] == Be(|e.yupdate|, 4)
            && b[FIXED..FIXED + |e.clientEventId|] == e.clientEventId && b[FIXED + |e.clientEventId|..] == e.yupdate
  {
  }

  lemma EnvelopeRoundTrip(utf8: Utf8, e: Envelope)
    requires WellTyped(utf8, e) && Encodable(e)
    ensures DecodeEnvelope(utf8, Body(utf8, e)) == Success(e)
  {
    BodySlices(utf8, e);
    SignedRoundTrip(e.seqNo, 8);
    SignedRoundTrip(e.schemaVersion, 4);
    BeRoundTrip(Unsigned(e.seqNo, 8), 8);
    BeRoundTrip(Unsigned(e.schemaVersion, 4), 4);
    BeRoundTrip(|e.clientEventId|, 4);
    BeRoundTrip(|e.yupdate|, 4);
  }

  /** A frame that decodes is the body of what it decodes to, byte for byte. */
  lemma EnvelopeCanonical(utf8: Utf8, frame: Bytes)
    requires DecodeEnvelope(utf8, frame).Success?
    ensures var e := DecodeEnvelope(utf8, frame).value; WellTyped(utf8, e) && Body(utf8, e) == frame
  {
    var e := DecodeEnvelope(utf8, frame).value;
    UnBeBound(frame[1..9]);
    UnBeBound(frame[9..13]);
    UnsignedRoundTrip(UnBe(frame[1..9]), 8);
    UnsignedRoundTrip(UnBe(frame[9..13]), 4);
    UnBeRoundTrip(frame[1..9]);
    UnBeRoundTrip(frame[9..13]);
    UnBeRoundTrip(frame[13..17]);
    UnBeRoundTrip(frame[17..21]);
    Reassemble(frame, UnBe(frame[13..17]));
  }

  lemma Reassemble(frame: Bytes, n: nat)
    requires FIXED + n <= |frame|
    ensures frame == [frame[0]] + frame[1..9] + frame[9..13] + frame[13..17] + frame[17..21]
                     + frame[FIXED..FIXED + n] + frame[FIXED + n..]
  {
  }

  // ---- streams ----

  predicate AllWellTyped(utf8: Utf8, es: seq<Envelope>) {
    forall i | 0 <= i < |es| :: WellTyped(utf8, es[i])
  }

  function EncodeStream(utf8: Utf8, es: seq<Envelope>): Result<Bytes, WireError>
    requires AllWellTyped(utf8, es)
  {
    if es == [] then Success([])
    else
      match EncodeEnvelope(utf8, es[0])
      case Failure(x) => Failure(x)
      case Success(first) =>
        match EncodeStream(utf8, es[1..]) case Failure(x) => Failure(x) case Success(rest) => Success(first + rest)
  }

  function DecodeStream(utf8: Utf8, bytes: Bytes): Result<seq<Envelope>, WireError>
    decreases |bytes|
  {
    if bytes == [] then Success([])
    else if |bytes| < 4 || |bytes| - 4 < UnBe(bytes[..4]) then Failure(Truncated)
    else
      var n := 4 + UnBe(bytes[..4]);
      match DecodeEnvelope(utf8, bytes[4..n])
      case Failure(x) => Failure(x)
      case Success(e) =>
        match DecodeStream(utf8, bytes[n..]) case Failure(x) => Failure(x) case Success(rest) => Success([e] + rest)
  }

  lemma FrameSplit(utf8: Utf8, e: Envelope, rest: Bytes)
    requires WellTyped(utf8, e) && Encodable(e)
    ensures var bytes := Be(|Body(utf8, e)|, 4) + Body(utf8, e) + rest;
            && UnBe(bytes[..4]) == |Body(utf8, e)|
            && bytes[4..4 + |Body(utf8, e)|] == Body(utf8, e) && bytes[4 + |Body(utf8, e)|..] == rest
  {
    BodySlices(utf8, e);
    BeRoundTrip(|Body(utf8, e)|, 4);
    var bytes := Be(|Body(utf8, e)|, 4) + Body(utf8, e) + rest;
    assert bytes[..4] == Be(|Body(utf8, e)|, 4);
  }

  /** Whatever the encoder accepts, the decoder returns unchanged and in order. */
  lemma {:induction false} StreamRoundTrip(utf8: Utf8, es: seq<Envelope>)
    requires AllWellTyped(utf8, es) && EncodeStream(utf8, es).Success?
    ensures DecodeStream(utf8, EncodeStream(utf8, es).value) == Success(es)
  {
    if es != [] {
      StreamRoundTrip(utf8, es[1..]);
      FrameSplit(utf8, es[0], EncodeStream(utf8, es[1..]).value);
      EnvelopeRoundTrip(utf8, es[0]);
      assert es == [es[0]] + es[1..];
    }
  }

  /** The decoder accepts nothing else: a stream that decodes is the encoding of its result, so
      no truncated, padded or otherwise altered stream decodes to the same updates. */
  lemma {:induction false} StreamCanonical(utf8: Utf8, bytes: Bytes)
    requires DecodeStream(utf8, bytes).Success?
    ensures var es := DecodeStream(utf8, bytes).value;
            AllWellTyped(utf8, es) && EncodeStream(utf8, es) == Success(bytes)
    decreases |bytes|
  {
    if bytes != [] {
      var e, n := FirstFrame(utf8, bytes);
      var tail := bytes[n..];
      StreamCanonical(utf8, tail);
      EncodeCons(utf8, e, DecodeStream(utf8, tail).value, tail);
      ThreeParts(bytes, n);
    }
  }

  /** The first frame of a stream that decodes. */
  lemma FirstFrame(utf8: Utf8, bytes: Bytes) returns (e: Envelope, n: nat)
    requires bytes != [] && DecodeStream(utf8, bytes).Success?
    ensures 4 <= n <= |bytes| && WellTyped(utf8, e) && |Body(utf8, e)| < Pow256(4)
    ensures bytes[..4] == Be(|Body(utf8, e)|, 4) && bytes[4..n] == Body(utf8, e)
    ensures var tail := DecodeStream(utf8, bytes[n..]);
            tail.Success? && DecodeStream(utf8, bytes).value == [e] + tail.value
  {
    n := 4 + UnBe(bytes[..4]);
    e := DecodeEnvelope(utf8, bytes[4..n]).value;
    EnvelopeCanonical(utf8, bytes[4..n]);
    UnBeBound(bytes[..4]);
    UnBeRoundTrip(bytes[..4]);
  }

  lemma ThreeParts(bytes: Bytes, n: nat)
    requires 4 <= n <= |bytes|
    ensures bytes == bytes[..4] + bytes[4..n] + bytes[n..]
  {
  }

  lemma EncodeCons(utf8: Utf8, e: Envelope, es: seq<Envelope>, rest: Bytes)
    requires WellTyped(utf8, e) && |Body(utf8, e)| < Pow256(4)
    requires AllWellTyped(utf8, es) && EncodeStream(utf8, es) == Success(rest)
    ensures AllWellTyped(utf8, [e] + es)
    ensures EncodeStream(utf8, [e] + es) == Success(Be(|Body(utf8, e)|, 4) + Body(utf8, e) + rest)
  {
    BodySlices(utf8, e);
    assert ([e] + es)[0] == e && ([e] + es)[1..] == es;
  }

  /** `encode_update_stream`, appending row after row. */
  method EncodeRows(utf8: Utf8, es: seq<Envelope>) returns (r: Result<Bytes, WireError>)
    requires AllWellTyped(utf8, es)
    ensures r.Success? <==> EncodeStream(utf8, es).Success?
    ensures r.Success? ==> r == EncodeStream(utf8, es)
  {
    var out: Bytes := [];
    var i := 0;
    while i < |es|
      invariant 0 <= i <= |es|
      invariant EncodeStream(utf8, es).Success? <==> EncodeStream(utf8, es[i..]).Success?
      invariant EncodeStream(utf8, es).Success? ==> EncodeStream(utf8, es).value == out + EncodeStream(utf8, es[i..]).value
    {
      assert es[i..][1..] == es[i + 1..];
      var frame := EncodeEnvelope(utf8, es[i]);
      if frame.Failure? { return Failure(frame.error); }
      out := out + frame.value;
      i := i + 1;
    }
    assert es[i..] == [] && out + [] == out;
    r := Success(out);
  }

  /** `decode_update_stream`, consuming frame after frame. */
  method DecodeRows(utf8: Utf8, bytes: Bytes) returns (r: Result<seq<Envelope>, WireError>)
    ensures r == DecodeStream(utf8, bytes)
  {
    var rest, decoded := bytes, [];
    AfterNothing(DecodeStream(utf8, bytes));
    while rest != []
      invariant DecodeStream(utf8, bytes) == After(decoded, DecodeStream(utf8, rest))
      decreases |rest|
    {
      if |rest| < 4 || |rest| - 4 < UnBe(rest[..4]) { return Failure(Truncated); }
      var n := 4 + UnBe(rest[..4]);
      var e := DecodeEnvelope(utf8, rest[4..n]);
      if e.Failure? { return Failure(e.error); }
      var tail := DecodeStream(utf8, rest[n..]);
      assert tail.Success? ==> decoded + ([e.value] + tail.value) == (decoded + [e.value]) + tail.value;
      decoded := decoded + [e.value];
      rest := rest[n..];
    }
    assert decoded + [] == decoded;
    r := Success(decoded);
  }

  /** The outcome of a stream whose first frames have been decoded. */
  function After(decoded: seq<Envelope>, rest: Result<seq<Envelope>, WireError>): Result<seq<Envelope>, WireError> {
    match rest case Failure(x) => Failure(x) case Success(es) => Success(decoded + es)
  }

  lemma AfterNothing(r: Result<seq<Envelope>, WireError>)
    ensures After([], r) == r
  {
    if r.Success? {
      assert [] + r.value == r.value;
    }
  }

  // ---- binary client commits ----

  const MAX_HEADER: nat := 4 * 1024 * 1024
  const MAX_UPDATE: nat := 8 * 1024 * 1024

  /** What a JSON header may parse to: a commit whose Yrs envelope has no inline update, or
      anything else. */
  datatype Header<C> = YrsCommit(commit: C) | OtherMessage

  datatype CommitError = CommitTooShort | BadHeaderLength | BadUpdateLength | BadHeader | NotYrsCommit

  datatype ClientCommit<C> = ClientCommit(commit: C, update: Bytes)

  /** `decode_binary_client_commit` */
  function DecodeClientCommit<C>(parse: Bytes -> Option<Header<C>>, bytes: Bytes): Result<ClientCommit<C>, CommitError> {
    if |bytes| < 4 then Failure(CommitTooShort)
    else
      var n := UnBe(bytes[..4]);
      if n == 0 || n > MAX_HEADER || |bytes| < 4 + n then Failure(BadHeaderLength)
      else if |bytes| == 4 + n || |bytes| - 4 - n > MAX_UPDATE then Failure(BadUpdateLength)
      else match parse(bytes[4..4 + n])
           case None => Failure(BadHeader)
           case Some(OtherMessage) => Failure(NotYrsCommit)
           case Some(YrsCommit(c)) => Success(ClientCommit(c, bytes[4 + n..]))
  }

  /** Exactly what a client must send: a commit is decoded from a frame if and only if the frame
      is a length-prefixed header of that commit followed by the update, both non-empty and
      within their limits. */
  lemma ClientCommitExact<C(!new)>(parse: Bytes -> Option<Header<C>>, bytes: Bytes, c: C, update: Bytes)
    ensures DecodeClientCommit(parse, bytes) == Success(ClientCommit(c, update))
            <==> exists header: Bytes ::
                   && 1 <= |header| <= MAX_HEADER && 1 <= |update| <= MAX_UPDATE
                   && parse(header) == Some(YrsCommit(c))
                   && bytes == Be(|header|, 4) + header + update
  {
    if DecodeClientCommit(parse, bytes) == Success(ClientCommit(c, update)) {
      var n := UnBe(bytes[..4]);
      UnBeRoundTrip(bytes[..4]);
      assert bytes == Be(|bytes[4..4 + n]|, 4) + bytes[4..4 + n] + bytes[4 + n..];
    }
    forall header: Bytes | 1 <= |header| <= MAX_HEADER && 1 <= |update| <= MAX_UPDATE
             && parse(header) == Some(YrsCommit(c)) && bytes == Be(|header|, 4) + header + update
      ensures DecodeClientCommit(parse, bytes) == Success(ClientCommit(c, update))
    {
      LengthFits(|header|);
      BeRoundTrip(|header|, 4);
      assert bytes[..4] == Be(|header|, 4) && bytes[4..4 + |header|] == header && bytes[4 + |header|..] == update;
    }
  }

  lemma LengthFits(n: nat)
    requires n <= MAX_HEADER
    ensures n < Pow256(4)
  {
    assert Pow256(4) == 256 * (256 * (256 * (256 * Pow256(0))));
  }
}
