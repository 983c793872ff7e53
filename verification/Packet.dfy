/** The 26-byte packet header and its wire form. */
module Packet {
  import opened Bytes

  const HEADER_LENGTH: nat := 26

  datatype Type = Retry | Handshake | Application | ElictAck | ACK | Stop | Fin | StartAck

  datatype Header = Header(ty: Type, pktNum: Word, priority: Byte, offset: Word, pktLength: Word)

  /** A datagram: a header and the bytes after it. */
  datatype Datagram = Datagram(hdr: Header, body: seq<Byte>)

  function TypeCode(ty: Type): Byte {
    match ty
    case Retry => 0x01
    case Handshake => 0x02
    case Application => 0x03
    case ElictAck => 0x04
    case ACK => 0x05
    case Stop => 0x06
    case _ => 0x07
  }

  function TypeOf(code: Byte): Type {
    if code == 0x01 then Retry
    else if code == 0x02 then Handshake
    else if code == 0x03 then Application
    else if code == 0x04 then ElictAck
    else if code == 0x05 then ACK
    else if code == 0x06 then Stop
    else if code == 0x07 then Fin
    else StartAck
  }

  function HeaderBytes(h: Header): (s: seq<Byte>)
    ensures |s| == HEADER_LENGTH
  {
    [TypeCode(h.ty)] + EncodeWord(h.pktNum) + [h.priority] + EncodeWord(h.offset) + EncodeWord(h.pktLength)
  }

  function ParseHeader(s: seq<Byte>): Result<Header> {
    if |s| < HEADER_LENGTH then
      Err(BufferTooShort)
    else
      Ok(Header(TypeOf(s[0]), DecodeWord(s[1..9]), s[9], DecodeWord(s[10..18]), DecodeWord(s[18..26])))
  }

  function Wire(d: Datagram): (s: seq<Byte>)
    ensures |s| == HEADER_LENGTH + |d.body|
    ensures s[HEADER_LENGTH..] == d.body
  {
    HeaderBytes(d.hdr) + d.body
  }

  lemma HeaderFields(h: Header, payload: seq<Byte>)
    ensures var s := HeaderBytes(h) + payload;
      && s[0] == TypeCode(h.ty) && s[1..9] == EncodeWord(h.pktNum) && s[9] == h.priority
      && s[10..18] == EncodeWord(h.offset) && s[18..26] == EncodeWord(h.pktLength)
  {
    var s := HeaderBytes(h) + payload;
    assert s[1..9] == EncodeWord(h.pktNum);
    assert s[10..18] == EncodeWord(h.offset);
    assert s[18..26] == EncodeWord(h.pktLength);
  }

  /** The code of each packet type, in both directions. */
  lemma TypeCodes()
    ensures [TypeCode(Retry), TypeCode(Handshake), TypeCode(Application), TypeCode(ElictAck), TypeCode(ACK), TypeCode(Stop), TypeCode(Fin)]
      == [1, 2, 3, 4, 5, 6, 7]
    ensures TypeCode(StartAck) == 7
    ensures forall code: Byte :: TypeOf(code) == StartAck || TypeCode(TypeOf(code)) == code
    ensures forall code: Byte :: TypeOf(code) == StartAck <==> code == 0 || code > 7
  {
  }

  /** Where everything stands in a header: the type code, then packet number, priority, offset and length,
      the three words most significant byte first. */
  lemma HeaderLayout(h: Header)
    ensures var s := HeaderBytes(h);
      && s[0] == TypeCode(h.ty) && Spelled(s[1..9]) == h.pktNum && s[9] == h.priority
      && Spelled(s[10..18]) == h.offset && Spelled(s[18..26]) == h.pktLength
  {
    HeaderFields(h, []);
    assert HeaderBytes(h) + [] == HeaderBytes(h);
    hide HeaderBytes, EncodeWord, Spelled;
    WordBytes(h.pktNum);
    WordBytes(h.offset);
    WordBytes(h.pktLength);
  }

  /** Whatever follows the header, parsing gives back every field; the type comes back
      exactly when it is not `StartAck`, which is written with the code of `Fin`. */
  lemma HeaderRoundTrip(h: Header, payload: seq<Byte>)
    ensures var r := ParseHeader(HeaderBytes(h) + payload);
      && r == Ok(h.(ty := if h.ty == StartAck then Fin else h.ty))
      && (r == Ok(h) <==> h.ty != StartAck)
  {
    HeaderFields(h, payload);
    DecodeEncodeWord(h.pktNum);
    DecodeEncodeWord(h.offset);
    DecodeEncodeWord(h.pktLength);
  }

  /** In the other direction, re-encoding a parsed header reproduces the bytes it was read
      from exactly when the type code is one of the seven that are assigned. */
  lemma ParseRoundTrip(s: seq<Byte>)
    requires |s| >= HEADER_LENGTH
    ensures HeaderBytes(ParseHeader(s).value) == s[..HEADER_LENGTH] <==> 1 <= s[0] <= 7
  {
    EncodeDecodeWord(s[1..9]);
    EncodeDecodeWord(s[10..18]);
    EncodeDecodeWord(s[18..26]);
    var h := HeaderBytes(ParseHeader(s).value);
    assert s[..HEADER_LENGTH] == [s[0]] + s[1..9] + [s[9]] + s[10..18] + s[18..26];
    assert h[0] == TypeCode(TypeOf(s[0])) && s[..HEADER_LENGTH][0] == s[0];
    assert h[1..] == s[..HEADER_LENGTH][1..];
    assert h == [h[0]] + h[1..];
  }

  /** The cursor over a byte buffer that headers and bodies are written through. */
  class OctetsMut {
    const buf: array<Byte>
    var off: nat

    ghost predicate Valid()
      reads this
    {
      off <= buf.Length
    }

    constructor WithSlice(buf: array<Byte>)
      ensures this.buf == buf && off == 0 && Valid()
    {
      this.buf := buf;
      off := 0;
    }

    method PutU8(v: Byte) returns (ok: bool)
      requires Valid()
      modifies this`off, buf
      ensures Valid()
      ensures ok <==> old(off) + 1 <= buf.Length
      ensures ok ==> off == old(off) + 1 && buf[..] == Splice(old(buf[..]), old(off), [v])
      ensures !ok ==> off == old(off) && buf[..] == old(buf[..])
    {
      ok := off + 1 <= buf.Length;
      if ok {
        buf[off] := v;
        off := off + 1;
      }
    }

    method PutU64(v: Word) returns (ok: bool)
      requires Valid()
      modifies this`off, buf
      ensures Valid()
      ensures ok <==> old(off) + 8 <= buf.Length
      ensures ok ==> off == old(off) + 8 && buf[..] == Splice(old(buf[..]), old(off), EncodeWord(v))
      ensures !ok ==> off == old(off) && buf[..] == old(buf[..])
    {
      ok := off + 8 <= buf.Length;
      if ok {
        var w := EncodeWord(v);
        forall i | 0 <= i < 8 {
          buf[off + i] := w[i];
        }
        off := off + 8;
      }
    }

    method GetU8() returns (r: Result<Byte>)
      requires Valid()
      modifies this`off
      ensures Valid()
      ensures old(off) < buf.Length ==> r == Ok(buf[old(off)]) && off == old(off) + 1
      ensures old(off) >= buf.Length ==> r == Err(BufferTooShort) && off == old(off)
    {
      if off < buf.Length {
        r := Ok(buf[off]);
        off := off + 1;
      } else {
        r := Err(BufferTooShort);
      }
    }

    method GetU64() returns (r: Result<Word>)
      requires Valid()
      modifies this`off
      ensures Valid()
      ensures old(off) + 8 <= buf.Length ==> r == Ok(DecodeWord(buf[old(off)..old(off) + 8])) && off == old(off) + 8
      ensures old(off) + 8 > buf.Length ==> r == Err(BufferTooShort) && off == old(off)
    {
      if off + 8 <= buf.Length {
        r := Ok(DecodeWord(buf[off..off + 8]));
        off := off + 8;
      } else {
        r := Err(BufferTooShort);
      }
    }
  }

  /** Writes the header at the cursor; on success exactly 26 bytes are consumed. */
  method ToBytes(h: Header, b: OctetsMut) returns (r: Result<()>)
    requires b.Valid()
    modifies b`off, b.buf
    ensures b.Valid()
    ensures r == if old(b.off) + HEADER_LENGTH <= b.buf.Length then Ok(()) else Err(BufferTooShort)
    ensures r.Ok? ==> b.off == old(b.off) + HEADER_LENGTH
    ensures r.Ok? ==> b.buf[..] == Splice(old(b.buf[..]), old(b.off), HeaderBytes(h))
  {
    r := Err(BufferTooShort);
    ghost var s, at := b.buf[..], b.off;
    var first := TypeCode(h.ty);
    var ok := b.PutU8(first);
    if !ok { return; }
    ok := b.PutU64(h.pktNum);
    if !ok { return; }
    SpliceTwice(s, at, [first], EncodeWord(h.pktNum));
    ok := b.PutU8(h.priority);
    if !ok { return; }
    SpliceTwice(s, at, [first] + EncodeWord(h.pktNum), [h.priority]);
    ok := b.PutU64(h.offset);
    if !ok { return; }
    SpliceTwice(s, at, [first] + EncodeWord(h.pktNum) + [h.priority], EncodeWord(h.offset));
    ok := b.PutU64(h.pktLength);
    if !ok { return; }
    SpliceTwice(s, at, [first] + EncodeWord(h.pktNum) + [h.priority] + EncodeWord(h.offset), EncodeWord(h.pktLength));
    r := Ok(());
  }

  /** Parses a header from the start of a buffer, consuming exactly 26 bytes. */
  method FromBytes(b: OctetsMut) returns (r: Result<Header>)
    requires b.Valid() && b.off == 0
    modifies b`off
    ensures b.Valid()
    ensures r == ParseHeader(b.buf[..])
    ensures r.Ok? ==> b.off == HEADER_LENGTH
  {
    var s := b.buf[..];
    var first := b.GetU8();
    if first.Err? { return Err(first.error); }
    var second := b.GetU64();
    if second.Err? { return Err(second.error); }
    var third := b.GetU8();
    if third.Err? { return Err(third.error); }
    var forth := b.GetU64();
    if forth.Err? { return Err(forth.error); }
    var fifth := b.GetU64();
    if fifth.Err? { return Err(fifth.error); }
    assert b.buf[1..9] == s[1..9] && b.buf[10..18] == s[10..18] && b.buf[18..26] == s[18..26];
    r := Ok(Header(TypeOf(first.value), second.value, third.value, forth.value, fifth.value));
  }
}
