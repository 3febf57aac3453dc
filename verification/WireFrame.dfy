/** The binary frame: a 16-byte big-endian header, an opaque payload and a 32-byte HMAC. */
module WireFrame {
  import opened Common

  type byte = b: int | 0 <= b < 256
  type Bytes = seq<byte>

  const HEADER_SIZE := 16
  const HMAC_SIZE := 32
  const MAX_PAYLOAD_SIZE := 1024

  /** HMAC-SHA256 under one fixed key; only the digest length matters here. */
  type Mac = f: Bytes -> Bytes | forall b: Bytes :: |f(b)| == HMAC_SIZE
    witness (b: Bytes) => ZEROS

  const ZEROS: Bytes := seq(HMAC_SIZE, i => 0)

  datatype EventType =
    | TOUCH_DOWN | TOUCH_MOVE | TOUCH_UP
    | KEY_DOWN | KEY_UP
    | GAMEPAD_BUTTON | GAMEPAD_AXIS
    | MOUSE_MOVE | MOUSE_CLICK | MOUSE_SCROLL
    | PING | PONG

  datatype WireError = PayloadTooLarge | PackError | TooShort | BadMac | UnknownEventType

  datatype Frame = Frame(
    version: int, eventType: EventType, sequence: int, timestampMs: int, payload: Bytes, flags: int)

  function Code(t: EventType): byte {
    match t
    case TOUCH_DOWN => 0x01
    case TOUCH_MOVE => 0x02
    case TOUCH_UP => 0x03
    case KEY_DOWN => 0x10
    case KEY_UP => 0x11
    case GAMEPAD_BUTTON => 0x20
    case GAMEPAD_AXIS => 0x21
    case MOUSE_MOVE => 0x30
    case MOUSE_CLICK => 0x31
    case MOUSE_SCROLL => 0x32
    case PING => 0xFE
    case PONG => 0xFF
  }

  function FromCode(c: byte): (t: Option<EventType>)
    ensures t.Some? ==> Code(t.value) == c
  {
    if c == 0x01 then Some(TOUCH_DOWN)
    else if c == 0x02 then Some(TOUCH_MOVE)
    else if c == 0x03 then Some(TOUCH_UP)
    else if c == 0x10 then Some(KEY_DOWN)
    else if c == 0x11 then Some(KEY_UP)
    else if c == 0x20 then Some(GAMEPAD_BUTTON)
    else if c == 0x21 then Some(GAMEPAD_AXIS)
    else if c == 0x30 then Some(MOUSE_MOVE)
    else if c == 0x31 then Some(MOUSE_CLICK)
    else if c == 0x32 then Some(MOUSE_SCROLL)
    else if c == 0xFE then Some(PING)
    else if c == 0xFF then Some(PONG)
    else None
  }

  lemma FromCodeTotal(e: EventType)
    ensures FromCode(Code(e)) == Some(e)
  {
  }

  // ---- Big-endian integers ----

  function Be16(n: int): Bytes
    requires 0 <= n < 0x1_0000
  {
    [n / 256, n % 256]
  }

  function Be32(n: int): Bytes
    requires 0 <= n < 0x1_0000_0000
  {
    Be16(n / 0x1_0000) + Be16(n % 0x1_0000)
  }

  function U16(b: Bytes): (n: int)
    requires |b| == 2
    ensures 0 <= n < 0x1_0000
  {
    b[0] as int * 256 + b[1] as int
  }

  function U32(b: Bytes): (n: int)
    requires |b| == 4
    ensures 0 <= n < 0x1_0000_0000
  {
    U16(b[..2]) * 0x1_0000 + U16(b[2..])
  }

  lemma U16OfBe16(n: int)
    requires 0 <= n < 0x1_0000
    ensures |Be16(n)| == 2 && U16(Be16(n)) == n
  {
  }

  lemma U32OfBe32(n: int)
    requires 0 <= n < 0x1_0000_0000
    ensures |Be32(n)| == 4 && U32(Be32(n)) == n
  {
    assert Be32(n)[..2] == Be16(n / 0x1_0000) && Be32(n)[2..] == Be16(n % 0x1_0000);
  }

  lemma Be16OfU16(b: Bytes)
    requires |b| == 2
    ensures Be16(U16(b)) == b
  {
  }

  lemma SplitWord(high: int, low: int)
    requires 0 <= low < 0x1_0000
    ensures (high * 0x1_0000 + low) / 0x1_0000 == high && (high * 0x1_0000 + low) % 0x1_0000 == low
  {
  }

  lemma Be32OfU32(b: Bytes)
    requires |b| == 4
    ensures Be32(U32(b)) == b
  {
    Be16OfU16(b[..2]);
    Be16OfU16(b[2..]);
    SplitWord(U16(b[..2]), U16(b[2..]));
    assert Be32(U32(b)) == Be16(U16(b[..2])) + Be16(U16(b[2..]));
    assert b == b[..2] + b[2..];
  }

  // ---- Frames ----

  /** Every header field fits the width it is packed into. */
  predicate Packable(f: Frame) {
    && 0 <= f.version < 256
    && 0 <= f.sequence < 0x1_0000_0000
    && 0 <= f.timestampMs < 0x1_0000_0000
    && 0 <= f.flags < 256
  }

  predicate Encodable(f: Frame) {
    |f.payload| <= MAX_PAYLOAD_SIZE && Packable(f)
  }

  /** Flags come before the payload length here, as in the packing code; the header
      comment in the source lists them the other way round. The last three bytes are the
      reserved one and the padding. */
  function Header(f: Frame): (h: Bytes)
    requires Encodable(f)
    ensures |h| == HEADER_SIZE
  {
    [f.version, Code(f.eventType)] + Be32(f.sequence) + Be32(f.timestampMs)
      + [f.flags] + Be16(|f.payload|) + [0, 0, 0]
  }

  function Wire(mac: Mac, f: Frame): (w: Bytes)
    requires Encodable(f)
    ensures |w| == HEADER_SIZE + |f.payload| + HMAC_SIZE
  {
    var body := Header(f) + f.payload;
    body + mac(body)
  }

  function ToWire(mac: Mac, f: Frame): Result<Bytes, WireError> {
    if |f.payload| > MAX_PAYLOAD_SIZE then Err(PayloadTooLarge)
    else if !Packable(f) then Err(PackError)
    else Ok(Wire(mac, f))
  }

  function FromWire(mac: Mac, data: Bytes): Result<Frame, WireError> {
    if |data| < HEADER_SIZE + HMAC_SIZE then Err(TooShort)
    else
      var body := data[..|data| - HMAC_SIZE];
      if data[|data| - HMAC_SIZE..] != mac(body) then Err(BadMac)
      else
        var declared := U16(body[11..13]);
        var rest := body[HEADER_SIZE..];
        match FromCode(body[1])
        case None => Err(UnknownEventType)
        case Some(t) =>
          Ok(Frame(body[0], t, U32(body[2..6]), U32(body[6..10]),
                   rest[..Min(declared, |rest|)], body[10]))
  }

  /** The bytes carry their own valid tag under this key. */
  predicate Authentic(mac: Mac, data: Bytes) {
    |data| >= HEADER_SIZE + HMAC_SIZE && data[|data| - HMAC_SIZE..] == mac(data[..|data| - HMAC_SIZE])
  }

  lemma Fields(a: Bytes, b: Bytes, c: Bytes, d: Bytes, e: Bytes, z: Bytes, more: Bytes)
    requires |a| == 2 && |b| == |c| == 4 && |d| == 1 && |e| == 2 && |z| == 3
    ensures
      var h := a + b + c + d + e + z + more;
      && h[0] == a[0] && h[1] == a[1] && h[2..6] == b && h[6..10] == c && h[10] == d[0]
      && h[11..13] == e && h[13] == z[0] && h[14] == z[1] && h[15] == z[2] && h[HEADER_SIZE..] == more
  {
  }

  lemma HeaderFields(f: Frame, more: Bytes)
    requires Encodable(f)
    ensures
      var h := Header(f) + more;
      && h[0] == f.version && h[1] == Code(f.eventType)
      && U32(h[2..6]) == f.sequence && U32(h[6..10]) == f.timestampMs
      && h[10] == f.flags && U16(h[11..13]) == |f.payload|
      && h[13] == h[14] == h[15] == 0
      && h[HEADER_SIZE..] == more
  {
    U32OfBe32(f.sequence);
    U32OfBe32(f.timestampMs);
    U16OfBe16(|f.payload|);
    Fields([f.version, Code(f.eventType)], Be32(f.sequence), Be32(f.timestampMs), [f.flags],
           Be16(|f.payload|), [0, 0, 0], more);
  }

  lemma SplitsAtTag(mac: Mac, body: Bytes)
    requires |body| >= HEADER_SIZE
    ensures
      var wire := body + mac(body);
      && |wire| == |body| + HMAC_SIZE
      && wire[..|wire| - HMAC_SIZE] == body && wire[|wire| - HMAC_SIZE..] == mac(body)
  {
  }

  lemma {:induction false} DecodesBack(mac: Mac, f: Frame)
    requires Encodable(f)
    ensures Authentic(mac, Wire(mac, f)) && FromWire(mac, Wire(mac, f)) == Ok(f)
  {
    var body := Header(f) + f.payload;
    SplitsAtTag(mac, body);
    HeaderFields(f, f.payload);
    FromCodeTotal(f.eventType);
    var rest := body[HEADER_SIZE..];
    assert rest[..|rest|] == rest;
  }

  /** Encoding succeeds exactly on encodable frames, and decoding gives the frame back. */
  lemma FrameRoundTrip(mac: Mac, f: Frame)
    ensures ToWire(mac, f).Ok? <==> Encodable(f)
    ensures Encodable(f) ==> FromWire(mac, ToWire(mac, f).value) == Ok(f)
  {
    if Encodable(f) {
      DecodesBack(mac, f);
    }
  }

  /** Decoding accepts exactly the authentic byte strings with a known type code. */
  lemma AcceptedIff(mac: Mac, data: Bytes)
    ensures FromWire(mac, data).Ok?
       <==> Authentic(mac, data) && exists t: EventType :: Code(t) == data[1]
  {
    if Authentic(mac, data) {
      forall t: EventType ensures FromCode(Code(t)) == Some(t) {
        FromCodeTotal(t);
      }
      assert FromCode(data[1]).Some? ==> Code(FromCode(data[1]).value) == data[1];
    }
  }

  /** A frame with one byte of its tag changed is not authentic. */
  lemma DamagedTag(mac: Mac, f: Frame, i: nat, b: byte)
    requires Encodable(f) && i < HMAC_SIZE
    ensures
      var wire := ToWire(mac, f).value;
      var at := |wire| - HMAC_SIZE + i;
      wire[at] != b ==> FromWire(mac, wire[at := b]) == Err(BadMac)
  {
    var body := Header(f) + f.payload;
    var wire := body + mac(body);
    SplitsAtTag(mac, body);
    var at := |wire| - HMAC_SIZE + i;
    var bad := wire[at := b];
    assert bad[..|bad| - HMAC_SIZE] == body;
    assert bad[|bad| - HMAC_SIZE..][i] == b && mac(body)[i] == wire[at];
  }

  /** The number that these bytes spell, the high byte first. */
  predicate Spells(high: byte, low: byte, n: int) {
    n == high as int * 256 + low as int
  }

  predicate SpellsWord(b3: byte, b2: byte, b1: byte, b0: byte, n: int) {
    n == b3 as int * 16777216 + b2 as int * 65536 + b1 as int * 256 + b0 as int
  }

  lemma NumbersSpelled(data: Bytes)
    requires |data| >= 16
    ensures SpellsWord(data[2], data[3], data[4], data[5], U32(data[2..6]))
    ensures SpellsWord(data[6], data[7], data[8], data[9], U32(data[6..10]))
    ensures Spells(data[11], data[12], U16(data[11..13]))
  {
    WordSpelled(data[2..6]);
    WordSpelled(data[6..10]);
  }

  lemma WordSpelled(b: Bytes)
    requires |b| == 4
    ensures SpellsWord(b[0], b[1], b[2], b[3], U32(b))
  {
  }

  /** These bytes start with the header of this frame, byte for byte. */
  predicate StartsWithHeader(w: Bytes, f: Frame) {
    && |w| >= 16 && w[0] == f.version && w[1] == Code(f.eventType)
    && SpellsWord(w[2], w[3], w[4], w[5], f.sequence) && SpellsWord(w[6], w[7], w[8], w[9], f.timestampMs)
    && w[10] == f.flags && Spells(w[11], w[12], |f.payload|) && w[13] == w[14] == w[15] == 0
  }

  lemma HeaderSpelled(f: Frame, more: Bytes)
    requires Encodable(f)
    ensures StartsWithHeader(Header(f) + more, f)
  {
    HeaderFields(f, more);
    NumbersSpelled(Header(f) + more);
  }

  lemma HeaderOnWire(mac: Mac, f: Frame) returns (more: Bytes)
    requires Encodable(f)
    ensures ToWire(mac, f).value == Header(f) + more && |more| == |f.payload| + 32
  {
    more := f.payload + mac(Header(f) + f.payload);
  }

  /** The 16 header bytes of an encoded frame, one by one: big-endian numbers and zero
      padding. */
  lemma HeaderBytes(mac: Mac, f: Frame)
    ensures Encodable(f) ==>
      |ToWire(mac, f).value| == 16 + |f.payload| + 32 && StartsWithHeader(ToWire(mac, f).value, f)
  {
    if Encodable(f) {
      var more := HeaderOnWire(mac, f);
      HeaderSpelled(f, more);
    }
  }

  /** Behind them the payload as it is, and the tag over everything before it. */
  lemma PayloadAndTag(mac: Mac, f: Frame)
    ensures Encodable(f) ==>
      var w, n := ToWire(mac, f).value, |f.payload|;
      |w| == 16 + n + 32 && w[16..16 + n] == f.payload && w[16 + n..] == mac(w[..16 + n])
  {
    if Encodable(f) {
      var body := Header(f) + f.payload;
      SplitsAtTag(mac, body);
      var w := body + mac(body);
      assert w[16..16 + |f.payload|] == f.payload && w[..16 + |f.payload|] == body;
    }
  }

  lemma SliceOfFront(data: Bytes, n: nat, lo: nat, hi: nat)
    requires lo <= hi <= n <= |data|
    ensures data[..n][lo..hi] == data[lo..hi]
  {
  }

  /** The fields of an accepted frame, byte by byte; the payload ends where it is declared
      to, or with the bytes at hand. */
  lemma DecodedFields(mac: Mac, data: Bytes)
    ensures FromWire(mac, data).Ok? ==>
      var f, rest := FromWire(mac, data).value, data[16..|data| - 32];
      && f.version == data[0] && Code(f.eventType) == data[1] && f.flags == data[10]
      && SpellsWord(data[2], data[3], data[4], data[5], f.sequence)
      && SpellsWord(data[6], data[7], data[8], data[9], f.timestampMs)
      && f.payload <= rest
      && (|f.payload| == |rest| || Spells(data[11], data[12], |f.payload|))
      && (|f.payload| == |rest| ==> data[11] as int * 256 + data[12] as int >= |rest|)
  {
    if FromWire(mac, data).Ok? {
      var n := |data| - HMAC_SIZE;
      SliceOfFront(data, n, 2, 6);
      SliceOfFront(data, n, 6, 10);
      SliceOfFront(data, n, 11, 13);
      SliceOfFront(data, n, 16, n);
      NumbersSpelled(data);
    }
  }

  /** Which error is raised: on encoding the payload's length is looked at first, on
      decoding the length, then the tag, then the type. */
  lemma ErrorsTold(mac: Mac, f: Frame, data: Bytes)
    ensures ToWire(mac, f) == Err(PayloadTooLarge) <==> |f.payload| > 1024
    ensures ToWire(mac, f) == Err(PackError) <==> |f.payload| <= 1024 && !Packable(f)
    ensures FromWire(mac, data) == Err(TooShort) <==> |data| < 48
    ensures FromWire(mac, data) == Err(BadMac) <==> |data| >= 48 && !Authentic(mac, data)
    ensures FromWire(mac, data) == Err(UnknownEventType) <==>
      Authentic(mac, data) && forall t: EventType :: Code(t) != data[1]
  {
    AcceptedIff(mac, data);
  }

  /** The type codes of the protocol. */
  lemma EventCodes()
    ensures Code(TOUCH_DOWN) == 1 && Code(TOUCH_MOVE) == 2 && Code(TOUCH_UP) == 3
    ensures Code(KEY_DOWN) == 16 && Code(KEY_UP) == 17 && Code(GAMEPAD_BUTTON) == 32 && Code(GAMEPAD_AXIS) == 33
    ensures Code(MOUSE_MOVE) == 48 && Code(MOUSE_CLICK) == 49 && Code(MOUSE_SCROLL) == 50
    ensures Code(PING) == 254 && Code(PONG) == 255
  {
  }

  /** No slack in the encoding: the reserved bytes are zero and the declared payload
      length is the actual one. */
  predicate Canonical(data: Bytes)
    requires |data| >= HEADER_SIZE + HMAC_SIZE
  {
    && data[13] == data[14] == data[15] == 0
    && U16(data[11..13]) == |data| - HEADER_SIZE - HMAC_SIZE <= MAX_PAYLOAD_SIZE
  }

  lemma HeaderOfParts(f: Frame, data: Bytes)
    requires Encodable(f) && |data| >= HEADER_SIZE
    requires data[0] == f.version && data[1] == Code(f.eventType) && data[10] == f.flags
    requires U32(data[2..6]) == f.sequence && U32(data[6..10]) == f.timestampMs
    requires U16(data[11..13]) == |f.payload| && data[13] == data[14] == data[15] == 0
    ensures Header(f) == data[..HEADER_SIZE]
  {
    var h := Header(f);
    Be32OfU32(data[2..6]);
    Be32OfU32(data[6..10]);
    Be16OfU16(data[11..13]);
    assert h[2..6] == Be32(f.sequence) == data[2..6];
    assert h[6..10] == Be32(f.timestampMs) == data[6..10];
    assert h[11..13] == Be16(|f.payload|) == data[11..13];
    assert h[2] == h[2..6][0] == data[2] && h[3] == h[2..6][1] == data[3];
    assert h[4] == h[2..6][2] == data[4] && h[5] == h[2..6][3] == data[5];
    assert h[6] == h[6..10][0] == data[6] && h[7] == h[6..10][1] == data[7];
    assert h[8] == h[6..10][2] == data[8] && h[9] == h[6..10][3] == data[9];
    assert h[11] == h[11..13][0] == data[11] && h[12] == h[11..13][1] == data[12];
  }

  lemma AuthenticSplits(mac: Mac, data: Bytes)
    requires Authentic(mac, data)
    ensures
      var body := data[..|data| - HMAC_SIZE];
      data == body + mac(body) && body == body[..HEADER_SIZE] + body[HEADER_SIZE..]
  {
  }

  lemma CanonicalReencodes(mac: Mac, data: Bytes)
    ensures FromWire(mac, data).Ok? && Canonical(data) ==> ToWire(mac, FromWire(mac, data).value) == Ok(data)
  {
    if FromWire(mac, data).Ok? && Canonical(data) {
      var f, body := FromWire(mac, data).value, data[..|data| - HMAC_SIZE];
      AuthenticSplits(mac, data);
      assert data[11..13] == body[11..13];
      assert f.payload == body[HEADER_SIZE..];
      HeaderOfParts(f, body);
    }
  }

  lemma EncodedIsCanonical(mac: Mac, f: Frame)
    requires Encodable(f)
    ensures Canonical(Wire(mac, f))
  {
    var body, wire := Header(f) + f.payload, Wire(mac, f);
    HeaderFields(f, f.payload);
    assert wire[..|body|] == body;
    assert wire[11..13] == body[11..13];
    assert wire[13] == body[13] && wire[14] == body[14] && wire[15] == body[15];
  }

  /** Re-encoding an accepted frame gives the same bytes back exactly when those bytes
      were canonical. */
  lemma ReencodesIffCanonical(mac: Mac, data: Bytes)
    ensures FromWire(mac, data).Ok? ==>
      (ToWire(mac, FromWire(mac, data).value) == Ok(data) <==> Canonical(data))
  {
    if FromWire(mac, data).Ok? {
      CanonicalReencodes(mac, data);
      var f := FromWire(mac, data).value;
      if ToWire(mac, f) == Ok(data) {
        EncodedIsCanonical(mac, f);
      }
    }
  }

  // ---- What the codec needs to know about frames ----

  /** Both directions of the frame format under one key, as one value. */
  datatype RawLink = RawLink(
    encode: Frame -> Result<Bytes, WireError>, decode: Bytes -> Result<Frame, WireError>)

  const MAX_WIRE_SIZE := HEADER_SIZE + MAX_PAYLOAD_SIZE + HMAC_SIZE

  ghost predicate Lawful(l: RawLink) {
    forall f: Frame ::
      && (l.encode(f).Ok? <==> Encodable(f))
      && (l.encode(f).Ok? ==>
            && HEADER_SIZE + HMAC_SIZE <= |l.encode(f).value| <= MAX_WIRE_SIZE
            && l.decode(l.encode(f).value) == Ok(f))
  }

  /** The frame format under one key. */
  function HmacLink(mac: Mac): (l: RawLink)
    ensures Lawful(l)
  {
    var l := RawLink((f: Frame) => ToWire(mac, f), (data: Bytes) => FromWire(mac, data));
    assert Lawful(l) by {
      forall f: Frame
        ensures l.encode(f).Ok? <==> Encodable(f)
        ensures l.encode(f).Ok? ==>
          && HEADER_SIZE + HMAC_SIZE <= |l.encode(f).value| <= MAX_WIRE_SIZE
          && l.decode(l.encode(f).value) == Ok(f)
      {
        FrameRoundTrip(mac, f);
      }
    }
    l
  }
}
