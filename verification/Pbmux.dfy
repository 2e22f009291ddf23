/** PBMUX framing: headers as bytes, messages as frames, and back. */
module Pbmux {
  import opened Basics

  const HEADER_LEN: nat := 40
  const MAX_PAYLOAD: nat := 61_440
  const MAX_LOGICAL: nat := 4 * 1024 * 1024
  const REMOTE_BUFFER_CHANNEL: nat := 2
  const MAGIC: Bytes := [0x50, 0x42, 0x4D, 0x31]

  // ----- Big-endian numbers -------------------------------------------------------------------

  function Pow256(w: nat): nat { if w == 0 then 1 else 256 * Pow256(w - 1) }

  function Big(n: nat, w: nat): (b: Bytes)
    ensures |b| == w
  {
    if w == 0 then [] else Big(n / 256, w - 1) + [n % 256]
  }

  function Number(b: Bytes): nat {
    if b == [] then 0 else 256 * Number(b[..|b| - 1]) + b[|b| - 1]
  }

  lemma {:induction false} NumberOfBig(n: nat, w: nat)
    requires n < Pow256(w)
    ensures Number(Big(n, w)) == n
  {
    if w > 0 {
      NumberOfBig(n / 256, w - 1);
      assert Big(n, w)[..w - 1] == Big(n / 256, w - 1);
    }
  }

  lemma {:induction false} BigOfNumber(b: Bytes)
    ensures Number(b) < Pow256(|b|) && Big(Number(b), |b|) == b
  {
    if b != [] {
      BigOfNumber(b[..|b| - 1]);
      assert b == b[..|b| - 1] + [b[|b| - 1]];
    }
  }

  // ----- Headers --------------------------------------------------------------------------------

  datatype Header = Header(
    magic: Bytes, version: nat, channel: nat, flags: nat, kind: nat, headerLen: nat,
    request: nat, sequence: nat, fragment: nat, payloadLen: nat, logicalLen: nat)

  /** Every field fits its place in the header. */
  predicate Fits(h: Header) {
    && |h.magic| == 4 && h.version < Pow256(1) && h.channel < Pow256(1) && h.flags < Pow256(2)
    && h.kind < Pow256(2) && h.headerLen < Pow256(2) && h.request < Pow256(8) && h.sequence < Pow256(8)
    && h.fragment < Pow256(4) && h.payloadLen < Pow256(4) && h.logicalLen < Pow256(4)
  }

  function Pack(h: Header): (raw: Bytes)
    requires |h.magic| == 4
    ensures |raw| == HEADER_LEN
  {
    h.magic + Big(h.version, 1) + Big(h.channel, 1) + Big(h.flags, 2) + Big(h.kind, 2) + Big(h.headerLen, 2)
    + Big(h.request, 8) + Big(h.sequence, 8) + Big(h.fragment, 4) + Big(h.payloadLen, 4) + Big(h.logicalLen, 4)
  }

  function Unpack(raw: Bytes): Header
    requires |raw| == HEADER_LEN
  {
    Header(raw[..4], Number(raw[4..5]), Number(raw[5..6]), Number(raw[6..8]), Number(raw[8..10]), Number(raw[10..12]),
           Number(raw[12..20]), Number(raw[20..28]), Number(raw[28..32]), Number(raw[32..36]), Number(raw[36..40]))
  }

  /** The number without its `k` lowest bytes. */
  function Shifted(n: nat, k: nat): nat { if k == 0 then n else Shifted(n / 256, k - 1) }

  /** Byte `i` of a number of `w` bytes, the most significant first. */
  lemma {:induction false} BigAt(n: nat, w: nat, i: nat)
    requires i < w
    ensures Big(n, w)[i] == Shifted(n, w - 1 - i) % 256
  {
    if i < w - 1 { BigAt(n / 256, w - 1, i); }
  }

  /** Where each field lies in the header. */
  lemma Layout(h: Header, i: nat)
    requires |h.magic| == 4 && i < 8
    ensures var raw := Pack(h);
            && raw[..4] == h.magic && raw[4] == h.version % 256 && raw[5] == h.channel % 256
            && raw[6] == h.flags / 256 % 256 && raw[7] == h.flags % 256
            && raw[8] == h.kind / 256 % 256 && raw[9] == h.kind % 256
            && raw[10] == h.headerLen / 256 % 256 && raw[11] == h.headerLen % 256
            && raw[12 + i] == Shifted(h.request, 7 - i) % 256
            && raw[20 + i] == Shifted(h.sequence, 7 - i) % 256
            && (i < 4 ==> raw[28 + i] == Shifted(h.fragment, 3 - i) % 256)
            && (i < 4 ==> raw[32 + i] == Shifted(h.payloadLen, 3 - i) % 256)
            && (i < 4 ==> raw[36 + i] == Shifted(h.logicalLen, 3 - i) % 256)
  {
    BigAt(h.request, 8, i);
    BigAt(h.sequence, 8, i);
    if i < 4 {
      BigAt(h.fragment, 4, i);
      BigAt(h.payloadLen, 4, i);
      BigAt(h.logicalLen, 4, i);
    }
    ShortFields(h);
    LongFields(h, i);
  }

  lemma ShortFields(h: Header)
    requires |h.magic| == 4
    ensures var raw := Pack(h);
            && raw[..4] == h.magic && raw[4] == h.version % 256 && raw[5] == h.channel % 256
            && raw[6] == h.flags / 256 % 256 && raw[7] == h.flags % 256
            && raw[8] == h.kind / 256 % 256 && raw[9] == h.kind % 256
            && raw[10] == h.headerLen / 256 % 256 && raw[11] == h.headerLen % 256
  {
    TwoBytes(h.flags);
    TwoBytes(h.kind);
    TwoBytes(h.headerLen);
  }

  lemma TwoBytes(n: nat)
    ensures Big(n, 2) == [n / 256 % 256, n % 256] && Big(n, 1) == [n % 256]
  {
    assert Big(n, 1) == Big(n / 256, 0) + [n % 256];
    assert Big(n / 256, 1) == Big(n / 256 / 256, 0) + [n / 256 % 256];
  }

  lemma LongFields(h: Header, i: nat)
    requires |h.magic| == 4 && i < 8
    ensures var raw := Pack(h);
            && raw[12 + i] == Big(h.request, 8)[i] && raw[20 + i] == Big(h.sequence, 8)[i]
            && (i < 4 ==> raw[28 + i] == Big(h.fragment, 4)[i] && raw[32 + i] == Big(h.payloadLen, 4)[i])
            && (i < 4 ==> raw[36 + i] == Big(h.logicalLen, 4)[i])
  {
  }

  lemma UnpackOfPack(h: Header)
    requires Fits(h)
    ensures Unpack(Pack(h)) == h
  {
    var raw := Pack(h);
    NumberOfBig(h.version, 1);
    NumberOfBig(h.channel, 1);
    NumberOfBig(h.flags, 2);
    NumberOfBig(h.kind, 2);
    NumberOfBig(h.headerLen, 2);
    NumberOfBig(h.request, 8);
    NumberOfBig(h.sequence, 8);
    NumberOfBig(h.fragment, 4);
    NumberOfBig(h.payloadLen, 4);
    NumberOfBig(h.logicalLen, 4);
    assert raw[..4] == h.magic && raw[4..5] == Big(h.version, 1) && raw[5..6] == Big(h.channel, 1);
    assert raw[6..8] == Big(h.flags, 2) && raw[8..10] == Big(h.kind, 2) && raw[10..12] == Big(h.headerLen, 2);
    assert raw[12..20] == Big(h.request, 8) && raw[20..28] == Big(h.sequence, 8);
    assert raw[28..32] == Big(h.fragment, 4) && raw[32..36] == Big(h.payloadLen, 4);
    assert |raw| == 40 && raw[36..] == Big(h.logicalLen, 4);
    assert raw[36..40] == raw[36..];
  }

  lemma PackOfUnpack(raw: Bytes)
    requires |raw| == HEADER_LEN
    ensures Fits(Unpack(raw)) && Pack(Unpack(raw)) == raw
  {
    BigOfNumber(raw[4..5]);
    BigOfNumber(raw[5..6]);
    BigOfNumber(raw[6..8]);
    BigOfNumber(raw[8..10]);
    BigOfNumber(raw[10..12]);
    BigOfNumber(raw[12..20]);
    BigOfNumber(raw[20..28]);
    BigOfNumber(raw[28..32]);
    BigOfNumber(raw[32..36]);
    BigOfNumber(raw[36..40]);
    assert raw == raw[..4] + raw[4..5] + raw[5..6] + raw[6..8] + raw[8..10] + raw[10..12]
               + raw[12..20] + raw[20..28] + raw[28..32] + raw[32..36] + raw[36..40];
  }

  // ----- Frames ---------------------------------------------------------------------------------

  /** A frame as it lies in a blob: forty header bytes and a payload. */
  datatype Piece = Piece(raw: Bytes, payload: Bytes)

  function LengthField(raw: Bytes): nat
    requires |raw| == HEADER_LEN
  {
    Number(raw[32..36])
  }

  predicate Whole(p: Piece) { |p.raw| == HEADER_LEN && LengthField(p.raw) == |p.payload| <= MAX_PAYLOAD }

  predicate AllWhole(pieces: seq<Piece>) { forall i | 0 <= i < |pieces| :: Whole(pieces[i]) }

  function Glued(pieces: seq<Piece>): Bytes {
    if pieces == [] then [] else pieces[0].raw + pieces[0].payload + Glued(pieces[1..])
  }

  /** The pieces of a blob, if it is one frame after another to its end. */
  function Cut(blob: Bytes): Option<seq<Piece>>
    decreases |blob|
  {
    if blob == [] then Some([])
    else if |blob| < HEADER_LEN then None
    else
      var len := LengthField(blob[..HEADER_LEN]);
      var end := HEADER_LEN + len;
      if len > MAX_PAYLOAD || end > |blob| then None
      else Prepend([Piece(blob[..HEADER_LEN], blob[HEADER_LEN..end])], Cut(blob[end..]))
  }

  function Prepend<T>(l: seq<T>, rest: Option<seq<T>>): Option<seq<T>> {
    if rest.None? then None else Some(l + rest.value)
  }

  lemma {:induction false} GluedOfCut(blob: Bytes)
    requires Cut(blob).Some?
    ensures AllWhole(Cut(blob).value) && Glued(Cut(blob).value) == blob
    decreases |blob|
  {
    if blob != [] {
      var end := HEADER_LEN + LengthField(blob[..HEADER_LEN]);
      GluedOfCut(blob[end..]);
      assert Cut(blob).value[1..] == Cut(blob[end..]).value;
      assert blob == blob[..HEADER_LEN] + blob[HEADER_LEN..end] + blob[end..];
    }
  }

  lemma {:induction false} CutOfGlued(pieces: seq<Piece>)
    requires AllWhole(pieces)
    ensures Cut(Glued(pieces)) == Some(pieces)
  {
    if pieces != [] {
      var p := pieces[0];
      var blob := Glued(pieces);
      var end := HEADER_LEN + |p.payload|;
      CutOfGlued(pieces[1..]);
      assert blob[..HEADER_LEN] == p.raw;
      assert blob[HEADER_LEN..end] == p.payload;
      assert blob[end..] == Glued(pieces[1..]);
      assert pieces == [p] + pieces[1..];
    }
  }

  datatype Frame = Frame(header: Header, payload: Bytes)

  function Frames(pieces: seq<Piece>): seq<Frame>
    requires AllWhole(pieces)
  {
    seq(|pieces|, i requires 0 <= i < |pieces| => Frame(Unpack(pieces[i].raw), pieces[i].payload))
  }

  /** Taking one piece off at the cursor. */
  lemma CutAt(blob: Bytes, cursor: nat, pieces: seq<Piece>, len: nat)
    requires cursor + HEADER_LEN <= |blob| && len == LengthField(blob[cursor..cursor + HEADER_LEN])
    ensures len > MAX_PAYLOAD || cursor + HEADER_LEN + len > |blob| ==> Cut(blob[cursor..]).None?
    ensures len <= MAX_PAYLOAD && cursor + HEADER_LEN + len <= |blob| ==>
      (var at := cursor + HEADER_LEN;
       var p := Piece(blob[cursor..at], blob[at..at + len]);
       Prepend(pieces, Cut(blob[cursor..])) == Prepend(pieces + [p], Cut(blob[at + len..])))
  {
    var at, end := cursor + HEADER_LEN, cursor + HEADER_LEN + len;
    assert blob[cursor..][..HEADER_LEN] == blob[cursor..at];
    if len <= MAX_PAYLOAD && end <= |blob| {
      assert blob[cursor..][HEADER_LEN..HEADER_LEN + len] == blob[at..end];
      assert blob[cursor..][HEADER_LEN + len..] == blob[end..];
      if Cut(blob[end..]).Some? {
        var p := Piece(blob[cursor..at], blob[at..end]);
        assert pieces + ([p] + Cut(blob[end..]).value) == pieces + [p] + Cut(blob[end..]).value;
      }
    }
  }

  lemma FramesAppend(pieces: seq<Piece>, p: Piece)
    requires AllWhole(pieces) && Whole(p)
    ensures AllWhole(pieces + [p])
    ensures Frames(pieces + [p]) == Frames(pieces) + [Frame(Unpack(p.raw), p.payload)]
  {
  }

  method SplitFrames(blob: Bytes) returns (r: Option<seq<Frame>>)
    ensures r.Some? <==> Cut(blob).Some?
    ensures r.Some? ==> AllWhole(Cut(blob).value) && r.value == Frames(Cut(blob).value)
  {
    var frames: seq<Frame> := [];
    ghost var pieces: seq<Piece> := [];
    var cursor := 0;
    assert blob[0..] == blob;
    assert Cut(blob).Some? ==> [] + Cut(blob).value == Cut(blob).value;
    while cursor < |blob|
      invariant 0 <= cursor <= |blob|
      invariant Cut(blob) == Prepend(pieces, Cut(blob[cursor..]))
      invariant AllWhole(pieces) && frames == Frames(pieces)
    {
      if |blob| - cursor < HEADER_LEN { return None; }
      var raw := blob[cursor..cursor + HEADER_LEN];
      var header := Unpack(raw);
      var end := cursor + HEADER_LEN + header.payloadLen;
      CutAt(blob, cursor, pieces, header.payloadLen);
      if header.payloadLen > MAX_PAYLOAD || end > |blob| { return None; }
      frames := frames + [Frame(header, blob[cursor + HEADER_LEN..end])];
      FramesAppend(pieces, Piece(raw, blob[cursor + HEADER_LEN..end]));
      pieces := pieces + [Piece(raw, blob[cursor + HEADER_LEN..end])];
      cursor := end;
    }
    assert blob[cursor..] == [] && pieces + [] == pieces;
    r := Some(frames);
  }

  // ----- Messages -------------------------------------------------------------------------------

  datatype Direction = HostToWorker | WorkerToHost

  datatype Message = Message(channel: nat, kind: nat, request: nat, body: Bytes)

  predicate Fragmentable(channel: nat, kind: nat, d: Direction) {
    channel == REMOTE_BUFFER_CHANNEL && (if d.HostToWorker? then kind == 3 else kind == 5)
  }

  /** The flags of frame `i` of `n`: request direction, start and end. */
  function Flags(d: Direction, n: nat, i: nat): nat {
    (if d.HostToWorker? then 4 else 0) + (if i == 0 then 1 else 0) + (if i + 1 == n then 2 else 0)
  }

  function HeaderAt(d: Direction, m: Message, n: nat, i: nat, len: nat): Header {
    Header(MAGIC, 1, m.channel, Flags(d, n, i), m.kind, HEADER_LEN, m.request,
           i, i, len, if i == 0 then |m.body| else 0)
  }

  function Flat(chunks: seq<Bytes>): Bytes {
    if chunks == [] then [] else Flat(chunks[..|chunks| - 1]) + chunks[|chunks| - 1]
  }

  lemma FlatOne(chunk: Bytes)
    ensures Flat([chunk]) == chunk
  {
    var chunks := [chunk];
    assert chunks[..0] == [];
  }

  function Payloads(frames: seq<Frame>): seq<Bytes> { seq(|frames|, i requires 0 <= i < |frames| => frames[i].payload) }

  /** The chunks may be sent as the message's frames. */
  predicate Legal(d: Direction, m: Message, chunks: seq<Bytes>) {
    && |chunks| > 0 && Flat(chunks) == m.body
    && (|chunks| > 1 ==> Fragmentable(m.channel, m.kind, d) && 0 < |m.body| <= MAX_LOGICAL)
  }

  /** The frames are the message's: contiguous numbers, one start, one end, the declared length. */
  predicate Carry(frames: seq<Frame>, d: Direction, m: Message) {
    && Legal(d, m, Payloads(frames))
    && forall i | 0 <= i < |frames| :: frames[i].header == HeaderAt(d, m, |frames|, i, |frames[i].payload|)
  }

  /** The message that the frames carry, if they carry one. */
  method Reassemble(frames: seq<Frame>, d: Direction) returns (r: Option<Message>)
    ensures forall m :: Carry(frames, d, m) <==> r == Some(m)
  {
    if frames == [] { return None; }
    var h := frames[0].header;
    var first := frames[0].payload;
    ghost var n := |frames|;
    if h.magic != MAGIC || h.version != 1 || h.headerLen != HEADER_LEN { return None; }
    if h.sequence != 0 || h.fragment != 0 || h.payloadLen != |first| { return None; }
    FlatOne(first);
    if |frames| == 1 {
      var expected := if d.HostToWorker? then 7 else 3;
      assert Payloads(frames) == [first];
      if h.flags != expected || h.logicalLen != |first| { return None; }
      return Some(Message(h.channel, h.kind, h.request, first));
    }
    if !Fragmentable(h.channel, h.kind, d) { return None; }
    var start := if d.HostToWorker? then 5 else 1;
    var middle := if d.HostToWorker? then 4 else 0;
    var last := if d.HostToWorker? then 6 else 2;
    if h.flags != start || h.logicalLen == 0 || h.logicalLen > MAX_LOGICAL { return None; }
    var logical := first;
    var i := 1;
    assert Payloads(frames)[..1] == [first];
    while i < |frames|
      invariant 1 <= i <= |frames|
      invariant logical == Flat(Payloads(frames)[..i])
      invariant forall j | 1 <= j < i ::
                  frames[j].header
                    == Header(MAGIC, 1, h.channel, Flags(d, n, j), h.kind, HEADER_LEN,
                            h.request, j, j, |frames[j].payload|, 0)
    {
      var f := frames[i];
      var expected := if i == |frames| - 1 then last else middle;
      if f.header != Header(MAGIC, 1, h.channel, expected, h.kind, HEADER_LEN, h.request, i, i, |f.payload|, 0) {
        return None;
      }
      assert Payloads(frames)[..i + 1][..i] == Payloads(frames)[..i];
      logical := logical + f.payload;
      i := i + 1;
    }
    assert Payloads(frames)[..n] == Payloads(frames);
    if |logical| != h.logicalLen { return None; }
    r := Some(Message(h.channel, h.kind, h.request, logical));
  }

  // ----- Accepted blobs are exactly encodings ---------------------------------------------------

  lemma Powers()
    ensures Pow256(1) == 0x100 && Pow256(2) == 0x1_0000
    ensures Pow256(4) == 0x1_0000_0000 && Pow256(8) == 0x1_0000_0000_0000_0000
  {
    assert Pow256(3) == 256 * Pow256(2);
    assert Pow256(5) == 256 * Pow256(4);
    assert Pow256(6) == 256 * Pow256(5);
    assert Pow256(7) == 256 * Pow256(6);
  }

  /** The message and its chunks fit the header's fields and the payload limit. */
  predicate Sendable(m: Message, chunks: seq<Bytes>) {
    && m.channel < Pow256(1) && m.kind < Pow256(2) && m.request < Pow256(8)
    && |chunks| <= Pow256(4) && |m.body| < Pow256(4)
    && forall i | 0 <= i < |chunks| :: |chunks[i]| <= MAX_PAYLOAD
  }

  function PieceAt(d: Direction, m: Message, chunks: seq<Bytes>, i: nat): Piece
    requires i < |chunks|
  {
    Piece(Pack(HeaderAt(d, m, |chunks|, i, |chunks[i]|)), chunks[i])
  }

  function Encoded(d: Direction, m: Message, chunks: seq<Bytes>): seq<Piece> {
    seq(|chunks|, i requires 0 <= i < |chunks| => PieceAt(d, m, chunks, i))
  }

  predicate Accepts(blob: Bytes, d: Direction, m: Message) {
    Cut(blob).Some? && AllWhole(Cut(blob).value) && Carry(Frames(Cut(blob).value), d, m)
  }

  method Decode(blob: Bytes, d: Direction) returns (r: Option<Message>)
    ensures forall m :: Accepts(blob, d, m) <==> r == Some(m)
  {
    var frames := SplitFrames(blob);
    if frames.None? { return None; }
    r := Reassemble(frames.value, d);
  }

  lemma HeaderFits(d: Direction, m: Message, chunks: seq<Bytes>, i: nat)
    requires Sendable(m, chunks) && i < |chunks|
    ensures Fits(HeaderAt(d, m, |chunks|, i, |chunks[i]|))
  {
    Powers();
  }

  lemma PieceReads(d: Direction, m: Message, chunks: seq<Bytes>, i: nat)
    requires Sendable(m, chunks) && i < |chunks|
    ensures var p := PieceAt(d, m, chunks, i);
            Whole(p) && Unpack(p.raw) == HeaderAt(d, m, |chunks|, i, |chunks[i]|)
  {
    HeaderFits(d, m, chunks, i);
    UnpackOfPack(HeaderAt(d, m, |chunks|, i, |chunks[i]|));
    assert Unpack(PieceAt(d, m, chunks, i).raw).payloadLen == |chunks[i]|;
  }

  lemma EncodedReads(d: Direction, m: Message, chunks: seq<Bytes>)
    requires Sendable(m, chunks)
    ensures AllWhole(Encoded(d, m, chunks))
    ensures forall i | 0 <= i < |chunks| ::
              Frames(Encoded(d, m, chunks))[i] == Frame(HeaderAt(d, m, |chunks|, i, |chunks[i]|), chunks[i])
  {
    forall i | 0 <= i < |chunks| ensures Whole(Encoded(d, m, chunks)[i]) { PieceReads(d, m, chunks, i); }
    forall i | 0 <= i < |chunks|
      ensures Frames(Encoded(d, m, chunks))[i] == Frame(HeaderAt(d, m, |chunks|, i, |chunks[i]|), chunks[i])
    {
      PieceReads(d, m, chunks, i);
    }
  }

  /** Frames with the right headers carry the message. */
  lemma HeadersCarry(frames: seq<Frame>, d: Direction, m: Message, chunks: seq<Bytes>)
    requires Legal(d, m, chunks) && |frames| == |chunks|
    requires forall i | 0 <= i < |chunks| :: frames[i] == Frame(HeaderAt(d, m, |chunks|, i, |chunks[i]|), chunks[i])
    ensures Carry(frames, d, m)
  {
    assert Payloads(frames) == chunks;
  }

  lemma EncodedCarries(d: Direction, m: Message, chunks: seq<Bytes>)
    requires Legal(d, m, chunks) && Sendable(m, chunks)
    ensures AllWhole(Encoded(d, m, chunks)) && Carry(Frames(Encoded(d, m, chunks)), d, m)
  {
    EncodedReads(d, m, chunks);
    HeadersCarry(Frames(Encoded(d, m, chunks)), d, m, chunks);
  }

  /** The header of frame `i` fits, so its fields do. */
  lemma CarriedHeaderFits(pieces: seq<Piece>, d: Direction, m: Message, i: nat)
    requires AllWhole(pieces) && Carry(Frames(pieces), d, m) && i < |pieces|
    ensures Fits(HeaderAt(d, m, |pieces|, i, |pieces[i].payload|)) && |pieces[i].payload| <= MAX_PAYLOAD
  {
    PackOfUnpack(pieces[i].raw);
    assert Frames(pieces)[i].header == HeaderAt(d, m, |pieces|, i, |pieces[i].payload|);
  }

  lemma CarriedFits(pieces: seq<Piece>, d: Direction, m: Message)
    requires AllWhole(pieces) && Carry(Frames(pieces), d, m)
    ensures Sendable(m, Payloads(Frames(pieces)))
  {
    CarriedHeaderFits(pieces, d, m, 0);
    CarriedHeaderFits(pieces, d, m, |pieces| - 1);
  }

  lemma CarriedIsEncoded(pieces: seq<Piece>, d: Direction, m: Message)
    requires AllWhole(pieces) && Carry(Frames(pieces), d, m)
    ensures pieces == Encoded(d, m, Payloads(Frames(pieces)))
  {
    var chunks := Payloads(Frames(pieces));
    forall i | 0 <= i < |pieces| ensures pieces[i] == PieceAt(d, m, chunks, i) {
      PackOfUnpack(pieces[i].raw);
      assert Frames(pieces)[i].header == HeaderAt(d, m, |pieces|, i, |pieces[i].payload|);
    }
  }

  /** A blob is accepted as a message exactly if it is an encoding of it: frames in order, one
      start, one end, and the declared length. */
  lemma AcceptedExactly(blob: Bytes, d: Direction, m: Message)
    ensures Accepts(blob, d, m) <==>
              exists chunks ::
                Legal(d, m, chunks) && Sendable(m, chunks) && blob == Glued(Encoded(d, m, chunks))
  {
    if Accepts(blob, d, m) {
      var pieces := Cut(blob).value;
      GluedOfCut(blob);
      CarriedFits(pieces, d, m);
      CarriedIsEncoded(pieces, d, m);
    }
    forall chunks | Legal(d, m, chunks) && Sendable(m, chunks) && blob == Glued(Encoded(d, m, chunks))
      ensures Accepts(blob, d, m)
    {
      EncodedCarries(d, m, chunks);
      CutOfGlued(Encoded(d, m, chunks));
    }
  }

  // ----- The writer -------------------------------------------------------------------------------

  function Chunks(body: Bytes): seq<Bytes>
    decreases |body|
  {
    if |body| <= MAX_PAYLOAD then (if body == [] then [] else [body])
    else [body[..MAX_PAYLOAD]] + Chunks(body[MAX_PAYLOAD..])
  }

  lemma {:induction false} FlatCons(chunk: Bytes, rest: seq<Bytes>)
    ensures Flat([chunk] + rest) == chunk + Flat(rest)
  {
    if rest == [] {
      assert [chunk] + rest == [chunk];
      FlatOne(chunk);
    } else {
      var n := |rest|;
      assert ([chunk] + rest)[..n] == [chunk] + rest[..n - 1];
      FlatCons(chunk, rest[..n - 1]);
    }
  }

  /** Full chunks and a last one, which together are the body. */
  lemma {:induction false} ChunksOf(body: Bytes)
    ensures Flat(Chunks(body)) == body
    ensures |Chunks(body)| == (|body| + MAX_PAYLOAD - 1) / MAX_PAYLOAD
    ensures forall i | 0 <= i < |Chunks(body)| :: 0 < |Chunks(body)[i]| <= MAX_PAYLOAD
    decreases |body|
  {
    if |body| > MAX_PAYLOAD {
      ChunksOf(body[MAX_PAYLOAD..]);
      FlatCons(body[..MAX_PAYLOAD], Chunks(body[MAX_PAYLOAD..]));
      assert body == body[..MAX_PAYLOAD] + body[MAX_PAYLOAD..];
    } else if body != [] {
      FlatOne(body);
    }
  }

  lemma {:induction false} GluedAppend(pieces: seq<Piece>, p: Piece)
    ensures Glued(pieces + [p]) == Glued(pieces) + p.raw + p.payload
  {
    if pieces == [] {
      assert pieces + [p] == [p] && [p][1..] == [];
    } else {
      assert (pieces + [p])[1..] == pieces[1..] + [p];
      GluedAppend(pieces[1..], p);
    }
  }

  lemma EncodedUpTo(d: Direction, m: Message, chunks: seq<Bytes>, i: nat)
    requires i < |chunks|
    ensures Glued(Encoded(d, m, chunks)[..i + 1])
         == Glued(Encoded(d, m, chunks)[..i]) + Pack(HeaderAt(d, m, |chunks|, i, |chunks[i]|)) + chunks[i]
  {
    var p := PieceAt(d, m, chunks, i);
    assert Encoded(d, m, chunks)[..i + 1] == Encoded(d, m, chunks)[..i] + [p];
    GluedAppend(Encoded(d, m, chunks)[..i], p);
  }

  method ChunkBody(body: Bytes) returns (chunks: seq<Bytes>)
    ensures chunks == Chunks(body)
  {
    chunks := [];
    var at := 0;
    assert body[0..] == body;
    while at < |body|
      invariant 0 <= at <= |body|
      invariant Chunks(body) == chunks + Chunks(body[at..])
    {
      var end := if at + MAX_PAYLOAD < |body| then at + MAX_PAYLOAD else |body|;
      assert body[at..][..end - at] == body[at..end];
      assert body[at..][end - at..] == body[end..];
      if end == |body| { assert body[at..end] == body[at..] && body[end..] == []; }
      assert Chunks(body[at..]) == [body[at..end]] + Chunks(body[end..]);
      chunks := chunks + [body[at..end]];
      at := end;
    }
  }

  /** Writes a message as frames, one after the other. */
  method Fragment(d: Direction, m: Message) returns (blob: Bytes)
    ensures blob == Glued(Encoded(d, m, Chunks(m.body)))
  {
    var chunks := ChunkBody(m.body);
    blob := [];
    for i := 0 to |chunks|
      invariant blob == Glued(Encoded(d, m, chunks)[..i])
    {
      var first, last := i == 0, i == |chunks| - 1;
      var flags := (if d.HostToWorker? then 4 else 0) + (if first then 1 else 0) + (if last then 2 else 0);
      var header := Header(MAGIC, 1, m.channel, flags, m.kind, HEADER_LEN, m.request,
                           i, i, |chunks[i]|, if first then |m.body| else 0);
      EncodedUpTo(d, m, chunks, i);
      blob := blob + Pack(header) + chunks[i];
    }
    assert Encoded(d, m, chunks)[..|chunks|] == Encoded(d, m, chunks);
  }

  /** Every message above one payload and up to four mebibytes comes back as it was. */
  lemma RoundTrip(d: Direction, m: Message)
    requires Fragmentable(m.channel, m.kind, d) && m.request < Pow256(8) && MAX_PAYLOAD < |m.body| <= MAX_LOGICAL
    ensures Accepts(Glued(Encoded(d, m, Chunks(m.body))), d, m)
  {
    var chunks := Chunks(m.body);
    ChunksOf(m.body);
    Powers();
    assert Legal(d, m, chunks) && Sendable(m, chunks);
    AcceptedExactly(Glued(Encoded(d, m, chunks)), d, m);
  }
}
