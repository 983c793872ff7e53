/** The sender's chunk queue: a deque of chunks, a parallel ordered map of keep/drop flags and
    the byte accounting of one congestion window. */
module SendBuffer {
  import opened Bytes
  import opened Ordered
  import opened RangeBuffer

  const SEND_BUFFER_SIZE: nat := 1024

  function TotalBytes(cs: seq<RangeBuf>): nat {
    if cs == [] then 0 else TotalBytes(cs[..|cs| - 1]) + |cs[|cs| - 1].data|
  }

  function Offsets(cs: seq<RangeBuf>): (os: seq<nat>)
    ensures |os| == |cs|
  {
    seq(|cs|, i requires 0 <= i < |cs| => cs[i].off)
  }

  /** The values of an ordered map, in key order. */
  function Values(m: map<nat, bool>): (vs: seq<bool>)
    ensures |vs| == |m|
    ensures forall i :: 0 <= i < |vs| ==> Keys(m.Keys)[i] in m && vs[i] == m[Keys(m.Keys)[i]]
  {
    var ks := Keys(m.Keys);
    KeysIn(m.Keys);
    seq(|ks|, i requires 0 <= i < |ks| => m[ks[i]])
  }

  /** `VecDeque::retain` with the verdicts read off an iterator, one per element. */
  function Retain(cs: seq<RangeBuf>, flags: seq<bool>): seq<RangeBuf>
    requires |cs| <= |flags|
  {
    if cs == [] then []
    else (if flags[0] then [cs[0]] else []) + Retain(cs[1..], flags[1..])
  }

  /** The chunks whose own offset is flagged to be kept. */
  function KeptByOffset(cs: seq<RangeBuf>, m: map<nat, bool>): seq<RangeBuf> {
    if cs == [] then []
    else (if cs[0].off in m && m[cs[0].off] then [cs[0]] else []) + KeptByOffset(cs[1..], m)
  }

  function Unflagged(m: map<nat, bool>): map<nat, bool> {
    map k | k in m && m[k] :: true
  }

  function Mark(m: map<nat, bool>, cs: seq<RangeBuf>): map<nat, bool> {
    if cs == [] then m else Mark(m, cs[..|cs| - 1])[cs[|cs| - 1].off := true]
  }

  /** `data.chunks(1024)`, placed in the stream from `off` on. */
  function Chunks(d: seq<Byte>, off: nat): (cs: seq<RangeBuf>)
    requires off + |d| < U64
  {
    if d == [] then []
    else
      var n := Min(|d|, SEND_BUFFER_SIZE);
      [From(d[..n], off)] + Chunks(d[n..], off + n)
  }

  /** The new chunks of one write: a first one up to the next block boundary, then whole blocks. */
  function Cut(d: seq<Byte>, off: nat, offLen: nat): seq<RangeBuf>
    requires off + |d| < U64
  {
    if offLen == 0 then Chunks(d, off)
    else if |d| <= offLen then [From(d, off)]
    else [From(d[..offLen], off)] + Chunks(d[offLen..], off + offLen)
  }

  function SkipEmpty(cs: seq<RangeBuf>, pos: nat): (p: nat)
    ensures pos <= p && (pos < |cs| ==> p <= |cs|) && (pos >= |cs| ==> p == pos)
    ensures p < |cs| ==> cs[p].Len() > 0
    ensures forall q :: pos <= q < p ==> q < |cs| && cs[q].Len() == 0
    decreases |cs| - pos
  {
    if pos < |cs| && cs[pos].Len() == 0 then SkipEmpty(cs, pos + 1) else pos
  }

  datatype Emitted = Emitted(buf: SendState, out: seq<Byte>, outLen: nat, outOff: nat, stop: bool)

  /** `len` and `usedLength` are plain integers here: a negative value is a subtraction the
      source would have underflowed on. */
  datatype SendState = SendState(
    data: seq<RangeBuf>, pos: nat, off: nat, len: int, maxData: nat, usedLength: int,
    offsetRecv: map<nat, bool>, sent: nat)
  {
    /** The drop step cannot run off the end of the flag iterator. */
    predicate CanDrop() {
      |data| <= |offsetRecv|
    }

    function RecvAndDrop(): SendState
      requires CanDrop()
    {
      if data == [] then this
      else this.(data := Retain(data, Values(offsetRecv)),
                 offsetRecv := Unflagged(offsetRecv))
    }

    function AckAndDrop(offset: nat): SendState {
      if offset in offsetRecv then this.(offsetRecv := offsetRecv[offset := false]) else this
    }

    /** How much of `input` one write takes in. */
    function Accepted(input: seq<Byte>, window: nat): (n: nat)
      requires CanDrop()
      ensures n <= |input|
    {
      var retained := TotalBytes(RecvAndDrop().data);
      if retained >= window then 0 else Min(|input|, window - retained)
    }

    /** The state in which a write starts to append. */
    function Base(window: nat): SendState
      requires CanDrop()
    {
      var d := RecvAndDrop();
      SendState(d.data, d.pos, d.off, TotalBytes(d.data), window, TotalBytes(d.data), d.offsetRecv, 0)
    }

    /** The state after appending the chunks `cs`, `n` bytes in all. */
    function Extend(cs: seq<RangeBuf>, n: nat): SendState {
      SendState(data + cs, pos, off + n, len + n, maxData, usedLength + n, Mark(offsetRecv, cs), sent)
    }

    function Write(input: seq<Byte>, window: nat, offLen: nat): (SendState, nat)
      requires CanDrop() && off + |input| < U64
    {
      var n := Accepted(input, window);
      if n == 0 then (Base(window), 0)
      else (Base(window).Extend(Cut(input[..n], off, offLen), n), n)
    }

    /** The chunks one write appends. */
    function Added(input: seq<Byte>, window: nat, offLen: nat): seq<RangeBuf>
      requires CanDrop() && off + |input| < U64
    {
      var n := Accepted(input, window);
      if n == 0 then [] else Cut(input[..n], off, offLen)
    }

    function OffFront(): nat {
      var p := SkipEmpty(data, pos);
      if p < |data| then data[p].Off() else off
    }

    /** The state, the buffer and the length after the copy loop: it copies the next non-empty
        chunk to the front of `out`, if `out` has room for any chunk. */
    function CopyNext(out: seq<Byte>): (SendState, seq<Byte>, nat) {
      var p := if |out| >= SEND_BUFFER_SIZE then SkipEmpty(data, pos) else pos;
      if |out| >= SEND_BUFFER_SIZE && p < |data| then
        var n := Min(data[p].Len(), |out|);
        (this.(pos := p + 1, len := len - n, usedLength := usedLength - n), data[p].data[..n] + out[n..], n)
      else (this.(pos := p), out, |out|)
    }

    function Emit(out: seq<Byte>): Emitted {
      var (b, out', n) := CopyNext(out);
      var full := sent + n >= maxData;
      var pos1 := if full then 0 else b.pos;
      var stop := full || pos1 == |data|;
      Emitted(b.(pos := if stop then 0 else pos1, sent := sent + n), out', n, OffFront(), stop)
    }
  }

  const EMPTY := SendState([], 0, 0, 0, 10800, 0, map[], 0)

  // ------------------------------------------------------------ the positional index

  ghost predicate Ascending(cs: seq<RangeBuf>) {
    forall i, j :: 0 <= i < j < |cs| ==> cs[i].off < cs[j].off
  }

  /** The flag map lists exactly the offsets of the deque, and both are in the same order. */
  ghost predicate Aligned(s: SendState) {
    Ascending(s.data) && Lists(Offsets(s.data), s.offsetRecv.Keys)
  }

  lemma OffsetsMember(cs: seq<RangeBuf>, o: nat)
    ensures o in Offsets(cs) <==> exists c :: c in cs && c.off == o
  {
    if o in Offsets(cs) {
      var i :| 0 <= i < |cs| && Offsets(cs)[i] == o;
      assert cs[i] in cs;
    }
    if c :| c in cs && c.off == o {
      var i :| 0 <= i < |cs| && cs[i] == c;
      assert Offsets(cs)[i] == o;
    }
  }

  lemma {:induction false} RetainIsKept(cs: seq<RangeBuf>, flags: seq<bool>, m: map<nat, bool>)
    requires |cs| == |flags|
    requires forall i :: 0 <= i < |cs| ==> cs[i].off in m && flags[i] == m[cs[i].off]
    ensures Retain(cs, flags) == KeptByOffset(cs, m)
  {
    if cs == [] {
    } else {
      RetainIsKept(cs[1..], flags[1..], m);
    }
  }

  lemma {:induction false} KeptMembers(cs: seq<RangeBuf>, m: map<nat, bool>)
    ensures forall c :: c in KeptByOffset(cs, m) <==> c in cs && c.off in m && m[c.off]
    ensures TotalBytes(KeptByOffset(cs, m)) <= TotalBytes(cs)
  {
    if cs == [] {
    } else {
      KeptMembers(cs[1..], m);
      TotalBytesAppend([cs[0]], cs[1..]);
      assert [cs[0]] + cs[1..] == cs;
      TotalBytesAppend(if cs[0].off in m && m[cs[0].off] then [cs[0]] else [], KeptByOffset(cs[1..], m));
    }
  }

  lemma PrependAscending(c: RangeBuf, cs: seq<RangeBuf>)
    requires Ascending(cs) && forall d :: d in cs ==> c.off < d.off
    ensures Ascending([c] + cs)
  {
    forall i, j | 0 <= i < j < |[c] + cs| ensures ([c] + cs)[i].off < ([c] + cs)[j].off {
      assert ([c] + cs)[j] == cs[j - 1] && cs[j - 1] in cs;
    }
  }

  lemma {:induction false} KeptAscending(cs: seq<RangeBuf>, m: map<nat, bool>)
    requires Ascending(cs)
    ensures Ascending(KeptByOffset(cs, m))
  {
    if cs == [] {
    } else {
      var rest := KeptByOffset(cs[1..], m);
      KeptAscending(cs[1..], m);
      KeptMembers(cs[1..], m);
      PrependAscending(cs[0], rest);
      assert [] + rest == rest;
    }
  }

  lemma {:induction false} TotalBytesAppend(a: seq<RangeBuf>, b: seq<RangeBuf>)
    ensures TotalBytes(a + b) == TotalBytes(a) + TotalBytes(b)
  {
    if b == [] {
      assert a + b == a;
    } else {
      assert (a + b)[..|a + b| - 1] == a + b[..|b| - 1];
      TotalBytesAppend(a, b[..|b| - 1]);
    }
  }

  /** Zipping the map's values onto the deque never runs out, and removes exactly the chunks whose
      own offset was flagged, keeping the order of the rest and the alignment. */
  lemma PositionalDrop(s: SendState)
    requires Aligned(s)
    ensures s.CanDrop() && |s.data| == |s.offsetRecv|
    ensures s.RecvAndDrop().data == KeptByOffset(s.data, s.offsetRecv)
    ensures Aligned(s.RecvAndDrop())
  {
    var m := s.offsetRecv;
    KeysOf(Offsets(s.data), m.Keys);
    assert |s.data| == |Keys(m.Keys)| == |m|;
    forall i | 0 <= i < |s.data| ensures s.data[i].off in m && Values(m)[i] == m[s.data[i].off] {
      assert Offsets(s.data)[i] in Offsets(s.data);
    }
    RetainIsKept(s.data, Values(m), m);
    var kept := KeptByOffset(s.data, m);
    KeptAscending(s.data, m);
    KeptMembers(s.data, m);
    var d := s.RecvAndDrop();
    forall o ensures o in Offsets(d.data) <==> o in d.offsetRecv.Keys {
      OffsetsMember(d.data, o);
      OffsetsMember(s.data, o);
    }
  }

  // ------------------------------------------------------------ what a write carves out

  /** `cs` are the pieces of `d`, in order, placed in the stream from `at` on. */
  ghost predicate Carves(cs: seq<RangeBuf>, d: seq<Byte>, at: nat) {
    if cs == [] then d == []
    else
      var n := |cs[0].data|;
      0 < n <= |d| && cs[0].off == at && cs[0].pos == 0 && cs[0].data == d[..n] && Carves(cs[1..], d[n..], at + n)
  }

  lemma SliceOfSuffix(d: seq<Byte>, n: nat, a: nat, b: nat)
    requires n + a <= n + b <= |d|
    ensures d[n..][a..b] == d[n + a..n + b]
  {
  }

  lemma {:induction false} CarvesAt(cs: seq<RangeBuf>, d: seq<Byte>, at: nat, i: nat)
    requires Carves(cs, d, at) && i < |cs|
    ensures var c := cs[i];
      && c.pos == 0 && 0 < |c.data| && at <= c.off && c.off + |c.data| <= at + |d|
      && c.data == d[c.off - at..c.off - at + |c.data|]
  {
    if i == 0 {
    } else {
      var n, c := |cs[0].data|, cs[1..][i - 1];
      CarvesAt(cs[1..], d[n..], at + n, i - 1);
      hide Carves;
      SliceOfSuffix(d, n, c.off - at - n, c.off - at - n + |c.data|);
    }
  }

  /** Different pieces do not overlap. */
  lemma {:induction false} CarvesDisjoint(cs: seq<RangeBuf>, d: seq<Byte>, at: nat, i: nat, j: nat)
    requires Carves(cs, d, at) && i < j < |cs|
    ensures cs[i].off + |cs[i].data| <= cs[j].off
  {
    var n := |cs[0].data|;
    if i == 0 {
      CarvesAt(cs[1..], d[n..], at + n, j - 1);
    } else {
      CarvesDisjoint(cs[1..], d[n..], at + n, i - 1, j - 1);
    }
  }

  lemma {:induction false} CarvesAppend(a: seq<RangeBuf>, d: seq<Byte>, b: seq<RangeBuf>, e: seq<Byte>, at: nat)
    requires Carves(a, d, at) && Carves(b, e, at + |d|)
    ensures Carves(a + b, d + e, at)
  {
    if a == [] {
      assert a + b == b && d + e == e;
    } else {
      var n := |a[0].data|;
      CarvesAppend(a[1..], d[n..], b, e, at + n);
      assert (a + b)[1..] == a[1..] + b;
      assert (d + e)[n..] == d[n..] + e && (d + e)[..n] == d[..n];
    }
  }

  ghost function Concat(cs: seq<RangeBuf>): seq<Byte> {
    if cs == [] then [] else cs[0].data + Concat(cs[1..])
  }

  lemma {:induction false} CarvesConcat(cs: seq<RangeBuf>, d: seq<Byte>, at: nat)
    requires Carves(cs, d, at)
    ensures Concat(cs) == d && TotalBytes(cs) == |d|
  {
    if cs == [] {
    } else {
      var n := |cs[0].data|;
      CarvesConcat(cs[1..], d[n..], at + n);
      assert d == d[..n] + d[n..];
      TotalBytesAppend([cs[0]], cs[1..]);
      assert TotalBytes([cs[0]]) == n by { assert [cs[0]][..0] == []; }
      assert [cs[0]] + cs[1..] == cs;
    }
  }

  lemma {:induction false} ChunksCarve(d: seq<Byte>, off: nat)
    requires off + |d| < U64
    ensures Carves(Chunks(d, off), d, off)
  {
    if d == [] {
    } else {
      var n := Min(|d|, SEND_BUFFER_SIZE);
      ChunksCarve(d[n..], off + n);
      assert Chunks(d, off)[1..] == Chunks(d[n..], off + n);
    }
  }

  lemma CutCarves(d: seq<Byte>, off: nat, offLen: nat)
    requires off + |d| < U64 && d != []
    ensures Carves(Cut(d, off, offLen), d, off)
  {
    if offLen == 0 {
      ChunksCarve(d, off);
    } else if |d| <= offLen {
      assert d[..|d|] == d && d[|d|..] == [];
    } else {
      ChunksCarve(d[offLen..], off + offLen);
      assert Cut(d, off, offLen)[1..] == Chunks(d[offLen..], off + offLen);
    }
  }

  /** The chunk lies inside one 1024-byte block of the stream. */
  ghost predicate InBlock(c: RangeBuf) {
    0 < |c.data| <= SEND_BUFFER_SIZE && c.off / SEND_BUFFER_SIZE == (c.off + |c.data| - 1) / SEND_BUFFER_SIZE
  }

  /** The distance from `off` to the next block boundary, 0 on a boundary. */
  function Lead(off: nat): nat {
    if off % SEND_BUFFER_SIZE == 0 then 0 else SEND_BUFFER_SIZE - off % SEND_BUFFER_SIZE
  }

  lemma {:induction false} ChunksInBlocks(d: seq<Byte>, off: nat)
    requires off + |d| < U64 && off % SEND_BUFFER_SIZE == 0
    ensures forall c :: c in Chunks(d, off) ==> InBlock(c)
  {
    if d == [] {
    } else {
      var n := Min(|d|, SEND_BUFFER_SIZE);
      assert InBlock(From(d[..n], off));
      if n < SEND_BUFFER_SIZE {
        assert d[n..] == [];
      } else {
        ChunksInBlocks(d[n..], off + n);
      }
    }
  }

  lemma CutInBlocks(d: seq<Byte>, off: nat)
    requires off + |d| < U64 && d != []
    ensures forall c :: c in Cut(d, off, Lead(off)) ==> InBlock(c)
  {
    var k := Lead(off);
    if k == 0 {
      ChunksInBlocks(d, off);
    } else if |d| <= k {
      assert InBlock(From(d, off));
    } else {
      assert InBlock(From(d[..k], off));
      ChunksInBlocks(d[k..], off + k);
    }
  }

  /** The chunk ends on a block boundary or at `end`. */
  ghost predicate EndsAtBlock(c: RangeBuf, end: nat) {
    (c.off + |c.data|) % SEND_BUFFER_SIZE == 0 || c.off + |c.data| == end
  }

  lemma {:induction false} ChunksMaximal(d: seq<Byte>, off: nat)
    requires off + |d| < U64 && off % SEND_BUFFER_SIZE == 0
    ensures forall c :: c in Chunks(d, off) ==> EndsAtBlock(c, off + |d|)
  {
    if d == [] {
    } else {
      var n := Min(|d|, SEND_BUFFER_SIZE);
      assert EndsAtBlock(From(d[..n], off), off + |d|);
      if n == SEND_BUFFER_SIZE {
        ChunksMaximal(d[n..], off + n);
      } else {
        assert d[n..] == [];
      }
    }
  }

  /** New chunks are as long as their block allows: each ends at a block boundary, or is the last one. */
  lemma CutMaximal(d: seq<Byte>, off: nat)
    requires off + |d| < U64 && d != []
    ensures forall c :: c in Cut(d, off, Lead(off)) ==> EndsAtBlock(c, off + |d|)
  {
    var k := Lead(off);
    if k == 0 {
      ChunksMaximal(d, off);
    } else if |d| <= k {
      assert EndsAtBlock(From(d, off), off + |d|);
    } else {
      assert EndsAtBlock(From(d[..k], off), off + |d|);
      ChunksMaximal(d[k..], off + k);
    }
  }

  // ------------------------------------------------------------ the queue over a run

  /** Aligned, and holding non-empty unread chunks below the write offset. */
  ghost predicate Valid(s: SendState) {
    Aligned(s) && Unread(s.data, s.off)
  }

  ghost predicate Unread(cs: seq<RangeBuf>, off: nat) {
    forall c :: c in cs ==> c.off < off && c.pos == 0 && c.data != []
  }

  lemma {:induction false} MarkFacts(m: map<nat, bool>, cs: seq<RangeBuf>)
    ensures Mark(m, cs).Keys == m.Keys + set o | o in Offsets(cs)
    ensures forall o :: o in Mark(m, cs) ==> Mark(m, cs)[o] == (o in Offsets(cs) || m[o])
  {
    if cs == [] {
    } else {
      var k := |cs| - 1;
      MarkFacts(m, cs[..k]);
      assert Offsets(cs) == Offsets(cs[..k]) + [cs[k].off];
    }
  }

  lemma AppendAscending(a: seq<RangeBuf>, b: seq<RangeBuf>, off: nat)
    requires Ascending(a) && Ascending(b)
    requires forall c :: c in a ==> c.off < off
    requires forall c :: c in b ==> off <= c.off
    ensures Ascending(a + b)
  {
    forall i, j | 0 <= i < j < |a + b| ensures (a + b)[i].off < (a + b)[j].off {
      if i < |a| <= j {
        assert a[i] in a && b[j - |a|] in b;
      }
    }
  }

  lemma CarvesPieces(cs: seq<RangeBuf>, d: seq<Byte>, at: nat)
    requires Carves(cs, d, at)
    ensures Ascending(cs)
    ensures forall c :: c in cs ==> at <= c.off < at + |d| && c.pos == 0 && c.data != []
  {
    forall i, j | 0 <= i < j < |cs| ensures cs[i].off < cs[j].off {
      CarvesAt(cs, d, at, i);
      CarvesDisjoint(cs, d, at, i, j);
    }
    forall c | c in cs ensures at <= c.off < at + |d| && c.pos == 0 && c.data != [] {
      var i :| 0 <= i < |cs| && cs[i] == c;
      CarvesAt(cs, d, at, i);
    }
  }

  lemma AddedCarves(s: SendState, input: seq<Byte>, window: nat, offLen: nat)
    requires s.CanDrop() && s.off + |input| < U64
    ensures Carves(s.Added(input, window, offLen), input[..s.Accepted(input, window)], s.off)
  {
    if s.Accepted(input, window) > 0 {
      CutCarves(input[..s.Accepted(input, window)], s.off, offLen);
    }
  }

  lemma MarkLists(a: seq<RangeBuf>, b: seq<RangeBuf>, m: map<nat, bool>)
    requires Lists(Offsets(a), m.Keys) && forall o :: o in m ==> m[o]
    ensures Lists(Offsets(a + b), Mark(m, b).Keys) && forall o :: o in Mark(m, b) ==> Mark(m, b)[o]
  {
    MarkFacts(m, b);
    assert Offsets(a + b) == Offsets(a) + Offsets(b);
  }

  lemma DropUnflags(s: SendState)
    requires Aligned(s)
    ensures s.CanDrop() && forall o :: o in s.RecvAndDrop().offsetRecv ==> s.RecvAndDrop().offsetRecv[o]
  {
    PositionalDrop(s);
    if s.data == [] {
      assert forall o :: o in s.offsetRecv.Keys ==> o in Offsets(s.data);
    }
  }

  /** What a write leaves, field by field. */
  lemma WriteFields(s: SendState, input: seq<Byte>, window: nat, offLen: nat)
    requires s.CanDrop() && s.off + |input| < U64
    ensures var (t, n) := s.Write(input, window, offLen);
      var d, added := s.RecvAndDrop(), s.Added(input, window, offLen);
      && n == s.Accepted(input, window)
      && t.data == d.data + added && t.offsetRecv == Mark(d.offsetRecv, added)
      && t.pos == s.pos && t.off == s.off + n && t.maxData == window && t.sent == 0
      && t.len == t.usedLength == TotalBytes(d.data) + n
  {
    assert Mark(s.RecvAndDrop().offsetRecv, []) == s.RecvAndDrop().offsetRecv;
    hide SendState.RecvAndDrop, SendState.Accepted, Mark, Cut, TotalBytes;
    if s.Accepted(input, window) == 0 {
      assert s.RecvAndDrop().data + [] == s.RecvAndDrop().data;
    }
  }

  /** A write keeps what was not flagged, appends the carved input, and flags nothing. */
  lemma WriteKeepsValid(s: SendState, input: seq<Byte>, window: nat, offLen: nat)
    requires Valid(s) && s.off + |input| < U64
    ensures s.CanDrop()
    ensures var (t, n) := s.Write(input, window, offLen);
      && Valid(t)
      && t.data == KeptByOffset(s.data, s.offsetRecv) + s.Added(input, window, offLen)
      && (forall o :: o in t.offsetRecv ==> t.offsetRecv[o])
  {
    PositionalDrop(s);
    WriteFields(s, input, window, offLen);
    DropUnflags(s);
    var d := s.RecvAndDrop();
    var added, n := s.Added(input, window, offLen), s.Accepted(input, window);
    AddedCarves(s, input, window, offLen);
    CarvesPieces(added, input[..n], s.off);
    KeptMembers(s.data, s.offsetRecv);
    AppendAscending(d.data, added, s.off);
    MarkLists(d.data, added, d.offsetRecv);
  }

  lemma AckKeepsValid(s: SendState, o: nat)
    requires Valid(s)
    ensures Valid(s.AckAndDrop(o))
  {
    assert s.AckAndDrop(o).offsetRecv.Keys == s.offsetRecv.Keys;
  }

  datatype Op = WriteOp(input: seq<Byte>, window: nat, offLen: nat) | EmitOp(out: seq<Byte>) | AckOp(offset: nat) | DropOp

  /** The stream offsets the call produces fit the source's `u64`. */
  predicate Fits(s: SendState, op: Op) {
    op.WriteOp? ==> s.off + |op.input| < U64
  }

  function Apply(s: SendState, op: Op): SendState
    requires Fits(s, op) && s.CanDrop()
  {
    match op
    case WriteOp(input, window, offLen) => s.Write(input, window, offLen).0
    case EmitOp(out) => s.Emit(out).buf
    case AckOp(offset) => s.AckAndDrop(offset)
    case DropOp => s.RecvAndDrop()
  }

  lemma {:induction false} ApplyKeepsValid(s: SendState, op: Op)
    requires Valid(s) && Fits(s, op)
    ensures s.CanDrop() && Valid(Apply(s, op))
  {
    hide Valid, SendState.CanDrop, SendState.Write, SendState.RecvAndDrop;
    match op
    case WriteOp(input, window, offLen) => WriteKeepsValid(s, input, window, offLen);
    case AckOp(offset) =>
      CanAlwaysDrop(s);
      AckKeepsValid(s, offset);
    case EmitOp(out) =>
      CanAlwaysDrop(s);
      ValidFields(s, s.Emit(out).buf);
    case DropOp => DropKeepsValid(s);
  }

  lemma CanAlwaysDrop(s: SendState)
    requires Valid(s)
    ensures s.CanDrop()
  {
    PositionalDrop(s);
  }

  lemma DropKeepsValid(s: SendState)
    requires Valid(s)
    ensures s.CanDrop() && Valid(s.RecvAndDrop())
  {
    PositionalDrop(s);
    hide SendState.RecvAndDrop;
    KeptMembers(s.data, s.offsetRecv);
  }

  /** Some run of calls leads from `s` to `t`, each within the `u64` range and none running off
      the flag iterator. */
  ghost predicate Leads(s: SendState, ops: seq<Op>, t: SendState)
    decreases ops
  {
    if ops == [] then s == t
    else Fits(s, ops[0]) && s.CanDrop() && Leads(Apply(s, ops[0]), ops[1..], t)
  }

  lemma {:induction false} RunKeepsValid(s: SendState, ops: seq<Op>, t: SendState)
    requires Valid(s) && Leads(s, ops, t)
    ensures Valid(t)
    decreases ops
  {
    if ops == [] {
    } else {
      ApplyKeepsValid(s, ops[0]);
      RunKeepsValid(Apply(s, ops[0]), ops[1..], t);
    }
  }

  /** After any run of calls from an empty queue, in any order, the keys of the flag map in
      iteration order are the offsets of the deque; so dropping by position drops by offset,
      and no further call can run off the iterator. */
  lemma IndexOverRuns(ops: seq<Op>, t: SendState)
    requires Leads(EMPTY, ops, t)
    ensures Keys(t.offsetRecv.Keys) == Offsets(t.data)
    ensures t.CanDrop()
    ensures t.RecvAndDrop().data == KeptByOffset(t.data, t.offsetRecv)
  {
    RunKeepsValid(EMPTY, ops, t);
    KeysOf(Offsets(t.data), t.offsetRecv.Keys);
    PositionalDrop(t);
  }

  // ------------------------------------------------------------ one round

  ghost predicate Sized(cs: seq<RangeBuf>) {
    forall c :: c in cs ==> |c.data| <= SEND_BUFFER_SIZE
  }

  /** Between a write and the stop of its round: the accounting fields are the bytes still to
      go, `sent` the bytes gone, and the window was not yet full before the last emission. */
  ghost predicate InRound(s: SendState) {
    && Valid(s) && Sized(s.data)
    && s.pos < |s.data|
    && s.len == s.usedLength == TotalBytes(s.data[s.pos..])
    && s.sent == TotalBytes(s.data[..s.pos])
    && (s.pos > 0 ==> s.sent < s.maxData)
  }

  lemma AddedSized(s: SendState, input: seq<Byte>, window: nat)
    requires s.CanDrop() && s.off + |input| < U64
    ensures var added := s.Added(input, window, Lead(s.off));
      && TotalBytes(added) == s.Accepted(input, window)
      && (forall c :: c in added ==> InBlock(c))
  {
    var added, n := s.Added(input, window, Lead(s.off)), s.Accepted(input, window);
    AddedCarves(s, input, window, Lead(s.off));
    CarvesConcat(added, input[..n], s.off);
    if n > 0 {
      CutInBlocks(input[..n], s.off);
    }
  }

  /** The bytes queued after a write: what is retained, filled up to the window if the input lasts. */
  lemma WriteFills(s: SendState, input: seq<Byte>, window: nat)
    requires Valid(s) && s.off + |input| < U64
    ensures s.CanDrop()
    ensures var (t, n) := s.Write(input, window, Lead(s.off));
      var retained := TotalBytes(KeptByOffset(s.data, s.offsetRecv));
      && t.len == t.usedLength == TotalBytes(t.data)
      && TotalBytes(t.data) == retained + n <= (if retained > window then retained else window)
      && (retained < window && n < |input| ==> TotalBytes(t.data) == window)
  {
    WriteKeepsValid(s, input, window, Lead(s.off));
    WriteFields(s, input, window, Lead(s.off));
    PositionalDrop(s);
    AddedSized(s, input, window);
    TotalBytesAppend(KeptByOffset(s.data, s.offsetRecv), s.Added(input, window, Lead(s.off)));
  }

  /** A write from the start position opens a round. */
  lemma WriteOpensRound(s: SendState, input: seq<Byte>, window: nat)
    requires Valid(s) && Sized(s.data) && s.pos == 0 && s.off + |input| < U64
    ensures s.CanDrop()
    ensures var t := s.Write(input, window, Lead(s.off)).0;
      Sized(t.data) && (t.data != [] ==> InRound(t))
  {
    hide SendState.Write, SendState.Added, KeptByOffset, Aligned;
    WriteKeepsValid(s, input, window, Lead(s.off));
    WriteFields(s, input, window, Lead(s.off));
    WriteFills(s, input, window);
    KeptMembers(s.data, s.offsetRecv);
    AddedSized(s, input, window);
    var t := s.Write(input, window, Lead(s.off)).0;
    assert t.data[t.pos..] == t.data && t.data[..t.pos] == [];
  }

  /** Emission of a whole chunk, field by field. */
  lemma EmitCopies(s: SendState, out: seq<Byte>)
    requires s.pos < |s.data| && s.data[s.pos].pos == 0
    requires 0 < |s.data[s.pos].data| <= SEND_BUFFER_SIZE <= |out|
    ensures var c := s.data[s.pos];
      var n := |c.data|;
      var stop := s.sent + n >= s.maxData || s.pos + 1 == |s.data|;
      s.Emit(out) == Emitted(
        s.(pos := if stop then 0 else s.pos + 1, len := s.len - n, usedLength := s.usedLength - n, sent := s.sent + n),
        c.data + out[n..], n, c.off, stop)
  {
    var c := s.data[s.pos];
    assert c.data[..|c.data|] == c.data;
  }

  lemma EmitBounds(s: SendState, out: seq<Byte>)
    ensures var e := s.Emit(out); e.outOff == s.OffFront() && e.outLen <= |out| == |e.out|
  {
    hide SendState.OffFront;
  }

  lemma TotalBytesSplit(cs: seq<RangeBuf>, i: nat)
    requires i < |cs|
    ensures TotalBytes(cs[i..]) == |cs[i].data| + TotalBytes(cs[i + 1..])
    ensures TotalBytes(cs[..i + 1]) == TotalBytes(cs[..i]) + |cs[i].data|
  {
    assert cs[i..] == [cs[i]] + cs[i + 1..];
    TotalBytesAppend([cs[i]], cs[i + 1..]);
    assert TotalBytes([cs[i]]) == |cs[i].data| by { assert [cs[i]][..0] == []; }
    assert cs[..i + 1][..i] == cs[..i];
  }

  /** One emission into a buffer of at least 1024 bytes: it copies the next chunk whole, no
      subtraction underflows, and the round stops exactly when the window is full or the queue is
      exhausted. */
  lemma EmitStep(s: SendState, out: seq<Byte>)
    requires InRound(s) && |out| >= SEND_BUFFER_SIZE
    ensures var e, c := s.Emit(out), s.data[s.pos];
      && e.outOff == c.off && e.outLen == |c.data| && e.out == c.data + out[|c.data|..]
      && e.buf.data == s.data && e.buf.offsetRecv == s.offsetRecv && e.buf.off == s.off && e.buf.maxData == s.maxData
      && e.buf.len == e.buf.usedLength == TotalBytes(s.data[s.pos + 1..]) >= 0
      && e.buf.sent == TotalBytes(s.data[..s.pos + 1]) <= s.maxData + SEND_BUFFER_SIZE
      && (e.stop <==> TotalBytes(s.data[..s.pos + 1]) >= s.maxData || s.pos + 1 == |s.data|)
      && (e.stop ==> e.buf.pos == 0)
      && (!e.stop ==> e.buf.pos == s.pos + 1 && InRound(e.buf))
  {
    FirstChunk(s);
    assert s.pos == 0 ==> s.data[..s.pos] == [] && TotalBytes([]) == 0;
    hide SendState.Emit, TotalBytes, Valid;
    EmitCopies(s, out);
    var t := s.Emit(out).buf;
    TotalBytesSplit(s.data, s.pos);
    ValidFields(s, t);
  }

  lemma FirstChunk(s: SendState)
    requires InRound(s)
    ensures s.pos < |s.data| && s.data[s.pos].pos == 0 && 0 < |s.data[s.pos].data| <= SEND_BUFFER_SIZE
  {
    assert s.data[s.pos] in s.data;
  }

  /** Validity does not depend on the position and the counters. */
  lemma ValidFields(s: SendState, t: SendState)
    requires Valid(s) && t.data == s.data && t.offsetRecv == s.offsetRecv && t.off == s.off
    ensures Valid(t)
  {
  }

  /** With a smaller buffer nothing is copied and the position stays: the caller's own bytes would
      be sent under the chunk's offset, and they count towards the window. */
  lemma EmitSmallBuffer(s: SendState, out: seq<Byte>)
    requires s.pos < |s.data| && s.data[s.pos].Len() > 0 && |out| < SEND_BUFFER_SIZE
    ensures var stop := s.sent + |out| >= s.maxData;
      s.Emit(out) == Emitted(s.(pos := if stop then 0 else s.pos, sent := s.sent + |out|), out, |out|, s.data[s.pos].Off(), stop)
  {
  }

  /** With the position beyond the queue nothing is copied either, but the whole buffer counts as sent; the
      position is reset when that fills the window or when it stands right behind the queue. */
  lemma EmitBeyond(s: SendState, out: seq<Byte>)
    requires s.pos >= |s.data|
    ensures var stop := s.sent + |out| >= s.maxData || s.pos == |s.data|;
      s.Emit(out).buf == s.(pos := if stop then 0 else s.pos, sent := s.sent + |out|)
      && s.Emit(out).out == out && s.Emit(out).outLen == |out| && s.Emit(out).outOff == s.off
      && s.Emit(out).stop == stop
  {
  }

  /** How many chunks a round emits from position `pos` on, `sent` bytes being gone. */
  function Quota(cs: seq<RangeBuf>, maxData: nat, pos: nat, sent: nat): (m: nat)
    ensures pos <= |cs| ==> m <= |cs| - pos
    ensures pos < |cs| <==> m > 0
    decreases |cs| - pos
  {
    if pos >= |cs| then 0
    else
      var sent' := sent + |cs[pos].data|;
      1 + if sent' >= maxData then 0 else Quota(cs, maxData, pos + 1, sent')
  }

  lemma {:induction false} QuotaUnfold(cs: seq<RangeBuf>, maxData: nat, pos: nat, sent: nat)
    requires pos < |cs|
    ensures var sent' := sent + |cs[pos].data|;
      Quota(cs, maxData, pos, sent) ==
      1 + if sent' >= maxData || pos + 1 == |cs| then 0 else Quota(cs, maxData, pos + 1, sent')
  {
  }

  /** One emission is one chunk of the quota, the last one if it stops the round. */
  lemma {:induction false} QuotaStep(s: SendState, out: seq<Byte>)
    requires s.pos < |s.data| && s.data[s.pos].pos == 0
    requires 0 < |s.data[s.pos].data| <= SEND_BUFFER_SIZE <= |out|
    ensures var e := s.Emit(out);
      && e.buf.data == s.data
      && Quota(s.data, s.maxData, s.pos, s.sent) == 1 + if e.stop then 0 else Quota(s.data, e.buf.maxData, e.buf.pos, e.buf.sent)
  {
    hide SendState.Emit, Quota;
    EmitCopies(s, out);
    QuotaUnfold(s.data, s.maxData, s.pos, s.sent);
  }

  /** A quota only looks ahead. */
  lemma {:induction false} QuotaShift(cs: seq<RangeBuf>, maxData: nat, from: nat, pos: nat, sent: nat)
    requires from <= |cs|
    ensures Quota(cs, maxData, from + pos, sent) == Quota(cs[from..], maxData, pos, sent)
    decreases |cs| - pos
  {
    if from + pos >= |cs| {
    } else {
      QuotaShift(cs, maxData, from, pos + 1, sent + |cs[from + pos].data|);
    }
  }

  lemma OffsetsCons(cs: seq<RangeBuf>, i: nat, m: nat)
    requires m > 0 && i + m <= |cs|
    ensures Offsets(cs[i..i + m]) == [cs[i].off] + Offsets(cs[i + 1..i + m])
  {
  }

  lemma OffsetsSnoc(cs: seq<RangeBuf>, i: nat)
    requires i < |cs|
    ensures Offsets(cs[..i + 1]) == Offsets(cs[..i]) + [cs[i].off]
  {
  }

  /** The bytes of the first `k` chunks. */
  ghost function Gone(cs: seq<RangeBuf>, k: nat): nat
    requires k <= |cs|
  {
    TotalBytes(cs[..k])
  }

  /** The quota is the least number of chunks whose bytes fill the window, or all of them. */
  lemma {:induction false} QuotaIsLeast(cs: seq<RangeBuf>, maxData: nat, pos: nat)
    requires pos < |cs|
    ensures var m := pos + Quota(cs, maxData, pos, Gone(cs, pos));
      && (m < |cs| ==> Gone(cs, m) >= maxData)
      && (forall k :: pos < k < m ==> Gone(cs, k) < maxData)
    decreases |cs| - pos
  {
    TotalBytesSplit(cs, pos);
    assert Gone(cs, pos + 1) == Gone(cs, pos) + |cs[pos].data|;
    if Gone(cs, pos + 1) >= maxData || pos + 1 == |cs| {
    } else {
      QuotaIsLeast(cs, maxData, pos + 1);
    }
  }

  // ------------------------------------------------------------ the object

  class SendBuf {
    var data: seq<RangeBuf>
    var pos: nat
    var off: nat
    var len: int
    var maxData: nat
    var usedLength: int
    var offsetRecv: map<nat, bool>
    var sent: nat

    ghost function Value(): SendState
      reads this
    {
      SendState(data, pos, off, len, maxData, usedLength, offsetRecv, sent)
    }

    constructor ()
      ensures Value() == EMPTY
    {
      data, pos, off, len, maxData, usedLength, offsetRecv, sent := [], 0, 0, 0, 10800, 0, map[], 0;
    }

    method Len() returns (length: nat)
      ensures length == TotalBytes(data)
    {
      length := 0;
      for i := 0 to |data|
        invariant length == TotalBytes(data[..i])
      {
        assert data[..i + 1][..i] == data[..i];
        length := length + |data[i].data|;
      }
      assert data[..|data|] == data;
    }

    method Cap() returns (capacity: int)
      modifies this`usedLength
      ensures usedLength == TotalBytes(data) && capacity == maxData - TotalBytes(data)
    {
      usedLength := Len();
      capacity := maxData - usedLength;
    }

    static method RetainByVerdict(cs: seq<RangeBuf>, verdicts: seq<bool>) returns (kept: seq<RangeBuf>)
      requires |cs| <= |verdicts|
      ensures kept == Retain(cs, verdicts)
    {
      kept := [];
      for i := 0 to |cs|
        invariant kept + Retain(cs[i..], verdicts[i..]) == Retain(cs, verdicts)
      {
        assert cs[i..][1..] == cs[i + 1..] && verdicts[i..][1..] == verdicts[i + 1..];
        if verdicts[i] {
          kept := kept + [cs[i]];
        }
      }
    }

    /** Filters the deque by position, one verdict of the flag iterator per chunk. */
    method RecvAndDrop()
      requires Value().CanDrop()
      modifies this
      ensures Value() == old(Value()).RecvAndDrop()
    {
      if data == [] {
        return;
      }
      var recvDrop := Values(offsetRecv);
      data := RetainByVerdict(data, recvDrop);
      offsetRecv := Unflagged(offsetRecv);
    }

    method AckAndDrop(offset: nat)
      modifies this`offsetRecv
      ensures Value() == old(Value()).AckAndDrop(offset)
    {
      if offset in offsetRecv {
        offsetRecv := offsetRecv[offset := false];
      }
    }

    static lemma {:induction false} MarkAppend(m: map<nat, bool>, a: seq<RangeBuf>, b: seq<RangeBuf>)
      ensures Mark(Mark(m, a), b) == Mark(m, a + b)
    {
      if b == [] {
        assert a + b == a;
      } else {
        assert (a + b)[..|a + b| - 1] == a + b[..|b| - 1];
        MarkAppend(m, a, b[..|b| - 1]);
      }
    }

    static lemma ExtendTwice(s: SendState, a: seq<RangeBuf>, n: nat, b: seq<RangeBuf>, m: nat)
      ensures s.Extend(a, n).Extend(b, m) == s.Extend(a + b, n + m)
    {
      MarkAppend(s.offsetRecv, a, b);
      assert s.data + a + b == s.data + (a + b);
    }

    method PushBack(chunk: seq<Byte>)
      requires off < U64
      modifies this
      ensures Value() == old(Value()).Extend([From(chunk, old(off))], |chunk|)
    {
      ghost var c := From(chunk, off);
      assert Mark(offsetRecv, [c]) == offsetRecv[off := true] by { assert [c][..0] == []; }
      offsetRecv := offsetRecv[off := true];
      data := data + [From(chunk, off)];
      off := off + |chunk|;
      len := len + |chunk|;
      usedLength := usedLength + |chunk|;
    }

    /** `for chunk in input.chunks(1024)`. */
    method PushChunks(input: seq<Byte>)
      requires off + |input| < U64
      modifies this
      ensures Value() == old(Value()).Extend(Chunks(input, old(off)), |input|)
    {
      var rest := input;
      ghost var done := [];
      assert Value() == old(Value()).Extend([], 0) by { assert data + [] == data; }
      while rest != []
        invariant off + |rest| == old(off) + |input|
        invariant Value() == old(Value()).Extend(done, |input| - |rest|)
        invariant done + Chunks(rest, off) == Chunks(input, old(off))
        decreases |rest|
      {
        var n := Min(|rest|, SEND_BUFFER_SIZE);
        ghost var chunk := From(rest[..n], off);
        ExtendTwice(old(Value()), done, |input| - |rest|, [chunk], n);
        PushBack(rest[..n]);
        done := done + [chunk];
        rest := rest[n..];
      }
      assert done + [] == done;
    }

    method PushCut(d: seq<Byte>, offLen: nat)
      requires off + |d| < U64 && d != []
      modifies this
      ensures Value() == old(Value()).Extend(Cut(d, old(off), offLen), |d|)
    {
      if offLen > 0 {
        if |d| > offLen {
          PushBack(d[..offLen]);
          ExtendTwice(old(Value()), [From(d[..offLen], old(off))], offLen, Chunks(d[offLen..], off), |d| - offLen);
          PushChunks(d[offLen..]);
        } else {
          PushBack(d);
        }
      } else {
        PushChunks(d);
      }
    }

    method Write(input: seq<Byte>, windowSize: nat, offLen: nat) returns (written: nat)
      requires Value().CanDrop() && off + |input| < U64
      modifies this
      ensures (Value(), written) == old(Value()).Write(input, windowSize, offLen)
    {
      ghost var s := Value();
      RecvAndDrop();
      maxData := windowSize;
      sent := 0;
      len := Len();
      usedLength := Len();
      assert Value() == s.Base(windowSize);
      if len >= windowSize {
        return 0;
      }
      if |input| == 0 {
        return 0;
      }
      var capacity := Cap();
      var d := input;
      if |d| > capacity {
        d := d[..capacity];
      }
      assert d == input[..s.Accepted(input, windowSize)];
      PushCut(d, offLen);
      written := |d|;
    }

    method OffFront() returns (front: nat)
      ensures front == Value().OffFront()
    {
      var p := pos;
      while p < |data|
        invariant SkipEmpty(data, p) == SkipEmpty(data, pos)
        decreases |data| - p
      {
        if data[p].Len() != 0 {
          return data[p].Off();
        }
        p := p + 1;
      }
      front := off;
    }

    static method CopyChunk(out: array<Byte>, from: nat, buf: RangeBuf) returns (n: nat)
      requires from <= out.Length
      modifies out
      ensures n == Min(buf.Len(), out.Length - from)
      ensures out[..from] == old(out[..from]) && out[from..] == buf.data[..n] + old(out[from..])[n..]
    {
      n := Min(buf.Len(), out.Length - from);
      CopyFromSlice(out, from, buf.data[..n]);
    }

    /** The copy loop on the slice of `out` that begins at `from`. */
    method CopyNext(out: array<Byte>, from: nat) returns (outLen: nat)
      requires from <= out.Length
      modifies this`pos, this`len, this`usedLength, out
      ensures out[..from] == old(out[..from])
      ensures (Value(), out[from..], outLen) == old(Value()).CopyNext(old(out[from..]))
    {
      outLen := out.Length - from;
      while outLen >= SEND_BUFFER_SIZE && data != []
        invariant unchanged(this`len) && unchanged(this`usedLength) && unchanged(out)
        invariant outLen == out.Length - from && out[from..] == old(out[from..])
        invariant outLen < SEND_BUFFER_SIZE ==> pos == old(pos)
        invariant SkipEmpty(data, pos) == SkipEmpty(data, old(pos))
        decreases |data| - pos
      {
        if pos >= |data| {
          assert SkipEmpty(data, pos) == pos;
          break;
        }
        var buf := data[pos];
        if buf.Len() == 0 {
          pos := pos + 1;
          continue;
        }
        assert SkipEmpty(data, pos) == pos;
        outLen := CopyChunk(out, from, buf);
        len := len - outLen;
        usedLength := usedLength - outLen;
        pos := pos + 1;
        break;
      }
    }

    /** Emission into the slice of `out` that begins at `from`. */
    method Emit(out: array<Byte>, from: nat) returns (outLen: nat, outOff: nat, stop: bool)
      requires from <= out.Length
      modifies this, out
      ensures out[..from] == old(out[..from])
      ensures Emitted(Value(), out[from..], outLen, outOff, stop) == old(Value()).Emit(old(out[from..]))
    {
      stop := false;
      hide SendState.CopyNext, SendState.OffFront;
      outOff := OffFront();
      outLen := CopyNext(out, from);
      sent := sent + outLen;
      if sent >= maxData {
        stop := true;
        pos := 0;
      }
      if pos == |data| {
        stop := true;
        pos := 0;
      }
    }
  }
}
