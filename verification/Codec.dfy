/** Bit-level encoding of CAN-TS identifiers, commands and block bitmaps. */
module Codec {
  import opened CanTypes

  // ---------- 29-bit identifier ----------

  const TO_MASK: bv32 := 0x1FE0_0000
  const TYPE_MASK: bv32 := 0x001C_0000
  const FROM_MASK: bv32 := 0x0003_FC00
  const CMD_MASK: bv32 := 0x0000_03FF

  function Encode(h: Header): bv32 {
    (((h.to.id as bv32) << 21) & TO_MASK)
    | (((h.mtype as bv32) << 18) & TYPE_MASK)
    | (((h.from.id as bv32) << 10) & FROM_MASK)
    | ((h.command as bv32) & CMD_MASK)
  }

  function Decode(id: bv32): Header {
    Header(Address(((id & TO_MASK) >> 21) as bv8),
           Address(((id & FROM_MASK) >> 10) as bv8),
           ((id & TYPE_MASK) >> 18) as bv8,
           (id & CMD_MASK) as bv16)
  }

  /** The accumulation the encoder performs, field by field. */
  method EncodeHeader(h: Header) returns (id: bv32)
    ensures id == Encode(h)
    ensures id < 0x2000_0000 && Decode(id) == h.(mtype := h.mtype & 7, command := h.command & 0x3FF)
  {
    EncodeTruncates(h);
    id := 0;
    id := id | (((h.to.id as bv32) << 21) & TO_MASK);
    id := id | (((h.mtype as bv32) << 18) & TYPE_MASK);
    id := id | (((h.from.id as bv32) << 10) & FROM_MASK);
    id := id | ((h.command as bv32) & CMD_MASK);
  }

  ghost predicate FitsIdentifier(h: Header) {
    h.mtype < 8 && h.command < 1024
  }

  /** The four identifier fields do not overlap. */
  lemma IdentifierFields(to: bv8, mtype: bv8, from: bv8, command: bv16)
    ensures var id := (((to as bv32) << 21) & TO_MASK) | (((mtype as bv32) << 18) & TYPE_MASK)
                    | (((from as bv32) << 10) & FROM_MASK) | ((command as bv32) & CMD_MASK);
            && id < 0x2000_0000
            && ((id & TO_MASK) >> 21) as bv8 == to
            && ((id & TYPE_MASK) >> 18) as bv8 == mtype & 7
            && ((id & FROM_MASK) >> 10) as bv8 == from
            && (id & CMD_MASK) as bv16 == command & 0x3FF
  {
  }

  lemma NarrowFields(mtype: bv8, command: bv16)
    ensures mtype < 8 ==> mtype & 7 == mtype
    ensures command < 1024 ==> command & 0x3FF == command
  {
  }

  /** Encoding keeps the addresses and truncates the other fields to their width. */
  lemma EncodeTruncates(h: Header)
    ensures Encode(h) < 0x2000_0000
    ensures Decode(Encode(h)) == h.(mtype := h.mtype & 7, command := h.command & 0x3FF)
  {
    IdentifierFields(h.to.id, h.mtype, h.from.id, h.command);
  }

  lemma HeaderRoundTrip(h: Header)
    requires FitsIdentifier(h)
    ensures Encode(h) < 0x2000_0000
    ensures Decode(Encode(h)) == h
  {
    EncodeTruncates(h);
    NarrowFields(h.mtype, h.command);
  }

  lemma FieldBits(id: bv32)
    ensures ((id & TYPE_MASK) >> 18) as bv8 < 8 && (id & CMD_MASK) as bv16 < 1024
    ensures (((((id & TO_MASK) >> 21) as bv8) as bv32 << 21) & TO_MASK)
          | (((((id & TYPE_MASK) >> 18) as bv8) as bv32 << 18) & TYPE_MASK)
          | (((((id & FROM_MASK) >> 10) as bv8) as bv32 << 10) & FROM_MASK)
          | ((((id & CMD_MASK) as bv16) as bv32) & CMD_MASK) == id & 0x1FFF_FFFF
  {
  }

  lemma IdentifierRoundTrip(id: bv32)
    ensures FitsIdentifier(Decode(id))
    ensures Encode(Decode(id)) == id & 0x1FFF_FFFF
  {
    FieldBits(id);
  }

  // The layout in plain numbers. Unsigned 32-bit arithmetic does not overflow here.

  /** Destination, type, source and command, from the most significant field down. */
  lemma IdentifierLayout(h: Header)
    ensures Encode(h) == (h.to.id as bv32) * 0x20_0000 + (h.mtype as bv32 % 8) * 0x4_0000
                         + (h.from.id as bv32) * 1024 + (h.command as bv32 % 1024)
  {
  }

  lemma HeaderLayout(id: bv32)
    ensures Decode(id).to.id == (id / 0x20_0000 % 256) as bv8
    ensures Decode(id).mtype == (id / 0x4_0000 % 8) as bv8
    ensures Decode(id).from.id == (id / 1024 % 256) as bv8
    ensures Decode(id).command == (id % 1024) as bv16
  {
  }

  /** A telecommand acknowledgement on channel 1 from node 0x34 to node 0x12. */
  lemma IdentifierExample()
    ensures Encode(Header(Address(0x12), Address(0x34), TELECOMMAND, 0x101)) == 0x248_D101
    ensures Decode(0x248_D101) == Header(Address(0x12), Address(0x34), TELECOMMAND, 0x101)
  {
  }

  // ---------- Telecommand and telemetry commands ----------

  datatype ReqAck = Req | Ack | Nack | Unassigned

  function ReqAckCode(k: ReqAck): bv16 {
    match k
    case Req => 0
    case Ack => 1
    case Nack => 2
    case Unassigned => 3
  }

  function MakeTcTmCommand(k: ReqAck, channel: bv8): bv16 {
    (ReqAckCode(k) << 8) | (channel as bv16)
  }

  function GetTcTmKind(command: bv16): ReqAck {
    var code := (command & 0x300) >> 8;
    if code == 0 then ReqAck.Req else if code == 1 then ReqAck.Ack
    else if code == 2 then ReqAck.Nack else ReqAck.Unassigned
  }

  function GetChannel(command: bv16): bv8 {
    (command & 0xFF) as bv8
  }

  lemma TcTmCommandRoundTrip(k: ReqAck, channel: bv8)
    ensures MakeTcTmCommand(k, channel) < 1024
    ensures GetTcTmKind(MakeTcTmCommand(k, channel)) == k
    ensures GetChannel(MakeTcTmCommand(k, channel)) == channel
  {
  }

  lemma TcTmCommandLayout(channel: bv8)
    ensures MakeTcTmCommand(ReqAck.Req, channel) == channel as bv16
    ensures MakeTcTmCommand(ReqAck.Ack, channel) == 256 + channel as bv16
    ensures MakeTcTmCommand(ReqAck.Nack, channel) == 512 + channel as bv16
    ensures MakeTcTmCommand(ReqAck.Unassigned, channel) == 768 + channel as bv16
  {
  }

  lemma TcTmCommandMeaning(command: bv16)
    ensures GetTcTmKind(command) == match command / 256 % 4
                                    case 0 => ReqAck.Req
                                    case 1 => ReqAck.Ack
                                    case 2 => ReqAck.Nack
                                    case _ => ReqAck.Unassigned
    ensures GetChannel(command) as bv16 == command % 256
  {
  }

  // ---------- Block commands ----------

  datatype SetKind = Request | Transfer | Ack | Abort | Nack | Reserved | StatusRequest | Report

  datatype GetKind = Request | Reserved1 | Ack | Abort | Nack | Reserved5 | Start | Transfer

  /** What the ten command bits of a SETBLOCK frame say. */
  datatype SetMsg = SetMsg(kind: SetKind, low6: Low6, done: bool)

  /** What the command bits of a GETBLOCK frame say; bit 6 carries no meaning there. */
  datatype GetMsg = GetMsg(kind: GetKind, low6: Low6)

  function SetKindCode(k: SetKind): bv16 {
    match k
    case Request => 0
    case Transfer => 1
    case Ack => 2
    case Abort => 3
    case Nack => 4
    case Reserved => 5
    case StatusRequest => 6
    case Report => 7
  }

  function GetKindCode(k: GetKind): bv16 {
    match k
    case Request => 0
    case Reserved1 => 1
    case Ack => 2
    case Abort => 3
    case Nack => 4
    case Reserved5 => 5
    case Start => 6
    case Transfer => 7
  }

  function BlockKindBits(command: bv16): bv16 {
    (command & 0x380) >> 7
  }

  function GetSetBlockType(command: bv16): SetKind {
    var code := BlockKindBits(command);
    if code == 0 then SetKind.Request else if code == 1 then SetKind.Transfer
    else if code == 2 then SetKind.Ack else if code == 3 then SetKind.Abort
    else if code == 4 then SetKind.Nack else if code == 5 then SetKind.Reserved
    else if code == 6 then SetKind.StatusRequest else SetKind.Report
  }

  function GetGetBlockType(command: bv16): GetKind {
    var code := BlockKindBits(command);
    if code == 0 then GetKind.Request else if code == 1 then GetKind.Reserved1
    else if code == 2 then GetKind.Ack else if code == 3 then GetKind.Abort
    else if code == 4 then GetKind.Nack else if code == 5 then GetKind.Reserved5
    else if code == 6 then GetKind.Start else GetKind.Transfer
  }

  function BlockLow6(command: bv16): Low6 {
    (command & 0x3F) as nat
  }

  function AckCommandLow7(command: bv16): bv16 {
    command & 0x7F
  }

  function GetSetBlockDone(command: bv16): bool {
    command & 0x40 != 0
  }

  function MakeSetBlockCommand(k: SetKind, low: bv16): bv16 {
    (SetKindCode(k) << 7) | (low & 0x3F)
  }

  function MakeGetBlockCommand(k: GetKind, low: bv16): bv16 {
    (GetKindCode(k) << 7) | (low & 0x3F)
  }

  function MakeSetBlockReportCommand(low: bv16, done: bool): bv16 {
    var command := MakeSetBlockCommand(SetKind.Report, low);
    if done then command | 0x40 else command
  }

  function DecodeSet(command: bv16): SetMsg {
    SetMsg(GetSetBlockType(command), BlockLow6(command), GetSetBlockDone(command))
  }

  function DecodeGet(command: bv16): GetMsg {
    GetMsg(GetGetBlockType(command), BlockLow6(command))
  }

  /** The kind, flag and sequence fields do not overlap. */
  lemma CommandFields(code: bv16, flag: bv16, low: bv16)
    requires code < 8 && (flag == 0 || flag == 0x40)
    ensures var c := (code << 7) | (low & 0x3F) | flag;
            c < 1024 && BlockKindBits(c) == code && c & 0x3F == low & 0x3F && c & 0x40 == flag
  {
  }

  lemma Low6Bits(low: Low6)
    ensures ((low as bv16) & 0x3F) as nat == low
  {
    var x := low as bv16;
    assert x as nat == low;
    MaskLow6(x);
  }

  lemma MaskLow6(x: bv16)
    requires x < 64
    ensures x & 0x3F == x
  {
  }

  lemma SetCommandRoundTrip(k: SetKind, low: Low6)
    ensures MakeSetBlockCommand(k, low as bv16) < 1024
    ensures DecodeSet(MakeSetBlockCommand(k, low as bv16)) == SetMsg(k, low, false)
  {
    CommandFields(SetKindCode(k), 0, low as bv16);
    Low6Bits(low);
  }

  lemma ReportCommandRoundTrip(low: Low6, done: bool)
    ensures MakeSetBlockReportCommand(low as bv16, done) < 1024
    ensures DecodeSet(MakeSetBlockReportCommand(low as bv16, done)) == SetMsg(SetKind.Report, low, done)
  {
    CommandFields(7, if done then 0x40 else 0, low as bv16);
    Low6Bits(low);
  }

  lemma GetCommandRoundTrip(k: GetKind, low: Low6)
    ensures MakeGetBlockCommand(k, low as bv16) < 1024
    ensures DecodeGet(MakeGetBlockCommand(k, low as bv16)) == GetMsg(k, low)
  {
    CommandFields(GetKindCode(k), 0, low as bv16);
    Low6Bits(low);
  }

  lemma EchoBits(command: bv16)
    ensures AckCommandLow7(command) & 0x3F == command & 0x3F
  {
  }

  /** A reply echoes the sequence bits of the command it answers and drops bit 6. */
  lemma EchoSetCommand(k: SetKind, command: bv16)
    ensures MakeSetBlockCommand(k, AckCommandLow7(command)) < 1024
    ensures DecodeSet(MakeSetBlockCommand(k, AckCommandLow7(command))) == SetMsg(k, BlockLow6(command), false)
  {
    CommandFields(SetKindCode(k), 0, AckCommandLow7(command));
    EchoBits(command);
  }

  lemma EchoGetCommand(k: GetKind, command: bv16)
    ensures MakeGetBlockCommand(k, AckCommandLow7(command)) < 1024
    ensures DecodeGet(MakeGetBlockCommand(k, AckCommandLow7(command))) == GetMsg(k, BlockLow6(command))
  {
    CommandFields(GetKindCode(k), 0, AckCommandLow7(command));
    EchoBits(command);
  }

  /** Two ten-bit commands that decode alike are the same command. */
  lemma CommandsAreFaithful(c: bv16, d: bv16)
    requires c < 1024 && d < 1024
    ensures DecodeSet(c) == DecodeSet(d) <==> c == d
  {
    if DecodeSet(c) == DecodeSet(d) {
      assert BlockKindBits(c) == BlockKindBits(d);
      assert (c & 0x3F) == (d & 0x3F);
      assert (c & 0x40) == (d & 0x40);
    }
  }

  // The layout in plain numbers.

  lemma SetCommandLayout(low: bv16, done: bool)
    ensures MakeSetBlockCommand(SetKind.Request, low) == low % 64
    ensures MakeSetBlockCommand(SetKind.Transfer, low) == 128 + low % 64
    ensures MakeSetBlockCommand(SetKind.Ack, low) == 256 + low % 64
    ensures MakeSetBlockCommand(SetKind.Abort, low) == 384 + low % 64
    ensures MakeSetBlockCommand(SetKind.Nack, low) == 512 + low % 64
    ensures MakeSetBlockCommand(SetKind.StatusRequest, low) == 768 + low % 64
    ensures MakeSetBlockReportCommand(low, done) == 896 + low % 64 + if done then 64 else 0
  {
  }

  lemma GetCommandLayout(low: bv16)
    ensures MakeGetBlockCommand(GetKind.Request, low) == low % 64
    ensures MakeGetBlockCommand(GetKind.Ack, low) == 256 + low % 64
    ensures MakeGetBlockCommand(GetKind.Abort, low) == 384 + low % 64
    ensures MakeGetBlockCommand(GetKind.Nack, low) == 512 + low % 64
    ensures MakeGetBlockCommand(GetKind.Start, low) == 768 + low % 64
    ensures MakeGetBlockCommand(GetKind.Transfer, low) == 896 + low % 64
  {
  }

  lemma Low6Meaning(command: bv16)
    ensures BlockLow6(command) == (command % 64) as nat
  {
    assert command & 0x3F == command % 64;
  }

  lemma SetCommandMeaning(command: bv16)
    ensures DecodeSet(command).kind == match command / 128 % 8
                                       case 0 => SetKind.Request
                                       case 1 => SetKind.Transfer
                                       case 2 => SetKind.Ack
                                       case 3 => SetKind.Abort
                                       case 4 => SetKind.Nack
                                       case 5 => SetKind.Reserved
                                       case 6 => SetKind.StatusRequest
                                       case _ => SetKind.Report
    ensures DecodeSet(command).low6 == (command % 64) as nat
    ensures DecodeSet(command).done <==> command / 64 % 2 == 1
  {
    Low6Meaning(command);
  }

  lemma GetCommandMeaning(command: bv16)
    ensures DecodeGet(command).kind == match command / 128 % 8
                                       case 0 => GetKind.Request
                                       case 1 => GetKind.Reserved1
                                       case 2 => GetKind.Ack
                                       case 3 => GetKind.Abort
                                       case 4 => GetKind.Nack
                                       case 5 => GetKind.Reserved5
                                       case 6 => GetKind.Start
                                       case _ => GetKind.Transfer
    ensures DecodeGet(command).low6 == (command % 64) as nat
  {
    Low6Meaning(command);
  }

  // ---------- Bitmaps ----------

  function BitmapSizeBytes(numBlocks: nat): nat {
    (numBlocks + 7) / 8
  }

  predicate AllBlocksReceived(received: seq<bool>) {
    forall i :: 0 <= i < |received| ==> received[i]
  }

  predicate Flag(received: seq<bool>, i: nat) {
    i < |received| && received[i]
  }

  /** The first n of eight consecutive flags as one byte, least significant bit first. */
  function PackBits(received: seq<bool>, base: nat, n: nat): Byte
    requires n <= 8
  {
    if n == 0 then 0
    else PackBits(received, base, n - 1) | (if Flag(received, base + n - 1) then (1 as Byte) << (n - 1) else 0)
  }

  function Bitmap(received: seq<bool>): (bitmap: seq<Byte>)
    ensures |bitmap| == BitmapSizeBytes(|received|)
  {
    seq(BitmapSizeBytes(|received|), j requires 0 <= j => PackBits(received, 8 * j, 8))
  }

  predicate Bit(b: Byte, k: nat)
    requires k < 8
  {
    b & ((1 as Byte) << k) != 0
  }

  /** Bit 0 is the least significant one. */
  lemma BitValue(b: Byte, k: nat)
    requires k < 8
    ensures Bit(b, k) <==> (b >> k) % 2 == 1
  {
  }

  predicate BitmapBitIsSet(bitmap: seq<Byte>, index: nat) {
    index / 8 < |bitmap| && Bit(bitmap[index / 8], index % 8)
  }

  lemma SetBit(b: Byte, i: nat, k: nat)
    requires i < 8 && k < 8
    ensures Bit(b | ((1 as Byte) << i), k) <==> i == k || Bit(b, k)
  {
  }

  lemma ZeroBits(b: Byte, k: nat)
    requires k < 8
    ensures b | 0 == b && !Bit(0, k)
  {
  }

  lemma SameBits(a: Byte, b: Byte)
    requires Bit(a, 0) == Bit(b, 0) && Bit(a, 1) == Bit(b, 1) && Bit(a, 2) == Bit(b, 2) && Bit(a, 3) == Bit(b, 3)
    requires Bit(a, 4) == Bit(b, 4) && Bit(a, 5) == Bit(b, 5) && Bit(a, 6) == Bit(b, 6) && Bit(a, 7) == Bit(b, 7)
    ensures a == b
  {
  }

  lemma {:induction false} PackedBit(received: seq<bool>, base: nat, n: nat, k: nat)
    requires n <= 8 && k < 8
    ensures Bit(PackBits(received, base, n), k) <==> k < n && Flag(received, base + k)
  {
    if n == 0 {
      ZeroBits(0, k);
    } else {
      PackedBit(received, base, n - 1, k);
      SetBit(PackBits(received, base, n - 1), n - 1, k);
      ZeroBits(PackBits(received, base, n - 1), k);
    }
  }

  lemma BitmapRoundTrip(received: seq<bool>, index: nat)
    ensures BitmapBitIsSet(Bitmap(received), index) <==> index < |received| && received[index]
  {
    if index / 8 < |Bitmap(received)| {
      PackedBit(received, 8 * (index / 8), 8, index % 8);
    }
  }

  /** A bitmap is determined by its bits. */
  lemma BitmapsWithSameBits(a: seq<Byte>, b: seq<Byte>)
    requires |a| == |b|
    requires forall i: nat :: i < 8 * |a| ==> BitmapBitIsSet(a, i) == BitmapBitIsSet(b, i)
    ensures a == b
  {
    forall j | 0 <= j < |a|
      ensures a[j] == b[j]
    {
      forall k: nat | k < 8
        ensures Bit(a[j], k) == Bit(b[j], k)
      {
        assert (8 * j + k) / 8 == j && (8 * j + k) % 8 == k;
        assert BitmapBitIsSet(a, 8 * j + k) == BitmapBitIsSet(b, 8 * j + k);
      }
      SameBits(a[j], b[j]);
    }
  }

  lemma SetBitmapBit(bitmap: seq<Byte>, i: nat, k: nat)
    requires i / 8 < |bitmap|
    ensures BitmapBitIsSet(bitmap[i / 8 := bitmap[i / 8] | ((1 as Byte) << (i % 8))], k)
       <==> i == k || BitmapBitIsSet(bitmap, k)
  {
    SetBit(bitmap[i / 8], i % 8, k % 8);
  }

  /** The bitmap is built by setting one bit per received block. */
  method MakeBitmap(received: seq<bool>) returns (bitmap: seq<Byte>)
    ensures bitmap == Bitmap(received)
  {
    var size := (|received| + 7) / 8;
    bitmap := seq(size, j => 0);
    forall k: nat
      ensures !BitmapBitIsSet(bitmap, k)
    {
      ZeroBits(0, k % 8);
    }
    for i := 0 to |received|
      invariant |bitmap| == size
      invariant forall k: nat :: BitmapBitIsSet(bitmap, k) <==> k < i && received[k]
    {
      if received[i] {
        var updated := bitmap[i / 8 := bitmap[i / 8] | ((1 as Byte) << (i % 8))];
        forall k: nat
          ensures BitmapBitIsSet(updated, k) <==> k == i || BitmapBitIsSet(bitmap, k)
        {
          SetBitmapBit(bitmap, i, k);
        }
        bitmap := updated;
      }
    }
    forall k: nat {
      BitmapRoundTrip(received, k);
    }
    BitmapsWithSameBits(bitmap, Bitmap(received));
  }

  /** The selection bitmap of a START frame: every bit set, then the bits past the last block cleared. */
  method StartBitmap(numBlocks: nat) returns (bitmap: seq<Byte>)
    requires 1 <= numBlocks <= 64
    ensures 1 <= |bitmap| <= 8 && |bitmap| == BitmapSizeBytes(numBlocks)
    ensures forall i: nat :: BitmapBitIsSet(bitmap, i) <==> i < numBlocks
  {
    bitmap := seq(BitmapSizeBytes(numBlocks), j => 0xFF);
    var last := |bitmap| - 1;
    var extraBits := |bitmap| * 8 - numBlocks;
    if extraBits > 0 {
      bitmap := bitmap[last := bitmap[last] & ((0xFF as Byte) >> extraBits)];
    }
    forall i: nat
      ensures BitmapBitIsSet(bitmap, i) <==> i < numBlocks
    {
      MaskBit(extraBits, i % 8);
    }
  }

  lemma MaskBit(extra: nat, k: nat)
    requires extra < 8 && k < 8
    ensures Bit(0xFF & ((0xFF as Byte) >> extra), k) <==> k < 8 - extra
    ensures Bit(0xFF, k)
  {
  }
}
