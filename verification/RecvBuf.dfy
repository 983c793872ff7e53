/** The receiver's chunk store: an ordered map from end offset to chunk, and a read cursor that
    skips over gaps. */
module RecvBuffer {
  import opened Bytes
  import opened Ordered
  import opened RangeBuffer

  datatype ReadResult = ReadResult(st: RecvState, out: seq<Byte>, len: nat)

  datatype Turn = Turn(st: RecvState, out: seq<Byte>, len: nat, cap: nat, done: bool)

  datatype RecvState = RecvState(data: map<nat, RangeBuf>, lastMaxoff: nat, maxRecvOff: nat)
  {
    function Write(buf: seq<Byte>, off: nat): RecvState {
      var chunk := From(buf, off);
      // `buf.max_off() - buf_len` is `off` again
      var st := if data.Keys != {} && Last(data.Keys) == off then this.(maxRecvOff := off) else this;
      st.(data := data[chunk.MaxOff() := chunk])
    }

    /** The gap between the cursor and the chunk. A negative gap is one that the source's `u64`
        subtraction wraps around to a value above any buffer length, so it takes the last branch
        of a turn. */
    function Gap(buf: RangeBuf): int {
      buf.MaxOff() - lastMaxoff - buf.Len()
    }

    function Advance(n: nat): RecvState {
      this.(lastMaxoff := lastMaxoff + n)
    }

    /** The buffer and cursor after one turn of the read loop on the first chunk. */
    function AfterTurn(cap: nat): RecvState
      requires data.Keys != {}
    {
      var k := First(data.Keys);
      var buf := data[k];
      var gap := Gap(buf);
      if 0 <= gap < cap then
        if cap - gap < buf.Len() then Advance(cap).(data := data[k := buf.Consume(cap - gap)])
        else Advance(gap + buf.Len()).(data := data - {k})
      else Advance(cap)
    }

    /** One turn of the read loop on the first chunk. */
    function ReadTurn(out: seq<Byte>, len: nat, cap: nat): (t: Turn)
      requires len + cap == |out| && cap > 0 && data.Keys != {}
      ensures |t.out| == |out|
      ensures !t.done ==> t.len + t.cap == |out| && |t.st.data| < |data|
    {
      var buf := data[First(data.Keys)];
      var gap := Gap(buf);
      if 0 <= gap < cap then
        var n := Min(buf.Len(), cap - gap);
        Turn(AfterTurn(cap), Splice(out, len + gap, buf.data[..n]), len + gap, cap - gap, n < buf.Len())
      else Turn(AfterTurn(cap), out, if gap == cap then len + gap else len, cap, true)
    }

    function EmitLoop(out: seq<Byte>, len: nat, cap: nat): (r: ReadResult)
      requires len + cap == |out|
      ensures |r.out| == |out|
      decreases |data|
    {
      if cap == 0 || data.Keys == {} then ReadResult(this, out, len)
      else
        var t := ReadTurn(out, len, cap);
        if t.done then ReadResult(t.st, t.out, t.len) else t.st.EmitLoop(t.out, t.len, t.cap)
    }

    function Emit(out: seq<Byte>): (RecvState, Result<ReadResult>) {
      if data.Keys == {} then (this, Err(Done))
      else (EmitLoop(out, 0, |out|).st, Ok(EmitLoop(out, 0, |out|)))
    }
  }

  const EMPTY := RecvState(map[], 0, 0)

  // ------------------------------------------------------------ the cursor

  /** Chunks are filed under their end offset, non-empty and disjoint. */
  ghost predicate Shaped(st: RecvState) {
    && (forall k :: k in st.data ==> st.data[k].Len() > 0 && st.data[k].MaxOff() == k)
    && (forall j, k :: j in st.data && k in st.data && j < k ==> j <= st.data[k].Off())
  }

  /** No buffered chunk starts before the read cursor. */
  ghost predicate CursorBelow(st: RecvState) {
    forall k :: k in st.data ==> st.lastMaxoff <= st.data[k].Off()
  }

  /** Some subtraction of this read goes below zero. */
  ghost predicate Underflows(st: RecvState, out: seq<Byte>, len: nat, cap: nat)
    requires len + cap == |out|
    decreases |st.data|
  {
    && cap > 0 && st.data.Keys != {}
    && var buf, t := st.data[First(st.data.Keys)], st.ReadTurn(out, len, cap);
       st.Gap(buf) < 0 || (!t.done && Underflows(t.st, t.out, t.len, t.cap))
  }

  lemma CursorAtFirst(st: RecvState)
    requires Shaped(st) && st.data.Keys != {}
    ensures CursorBelow(st) <==> st.lastMaxoff <= st.data[First(st.data.Keys)].Off()
  {
    var f := First(st.data.Keys);
    if st.lastMaxoff <= st.data[f].Off() {
      forall k | k in st.data ensures st.lastMaxoff <= st.data[k].Off() {
        if k != f {
          assert f < k;
        }
      }
    }
  }

  /** Chunks behind the first start at or after its end. */
  lemma BehindFirst(st: RecvState, j: nat)
    requires Shaped(st) && j in st.data && j != First(st.data.Keys)
    ensures First(st.data.Keys) <= st.data[j].Off()
  {
    assert First(st.data.Keys) < j;
  }

  lemma TurnKeepsCursor(st: RecvState, cap: nat)
    requires Shaped(st) && CursorBelow(st) && st.data.Keys != {}
    ensures var t := st.AfterTurn(cap);
      Shaped(t) && CursorBelow(t) && st.lastMaxoff <= t.lastMaxoff && t.data.Keys <= st.data.Keys
    ensures st.Gap(st.data[First(st.data.Keys)]) >= 0
  {
    AfterTurnShaped(st, cap);
    var k, t := First(st.data.Keys), st.AfterTurn(cap);
    assert st.lastMaxoff <= st.data[k].Off() < k == st.data[k].MaxOff();
    assert t.lastMaxoff <= k;
    forall j | j in t.data ensures t.lastMaxoff <= t.data[j].Off() {
      if j != k {
        BehindFirst(st, j);
      }
    }
  }

  lemma {:induction false} EmitLoopKeepsCursor(st: RecvState, out: seq<Byte>, len: nat, cap: nat)
    requires Shaped(st) && CursorBelow(st) && len + cap == |out|
    ensures var r := st.EmitLoop(out, len, cap);
      && Shaped(r.st) && CursorBelow(r.st)
      && st.lastMaxoff <= r.st.lastMaxoff
      && r.st.data.Keys <= st.data.Keys
      && !Underflows(st, out, len, cap)
    decreases |st.data|
  {
    if cap == 0 || st.data.Keys == {} {
    } else {
      TurnKeepsCursor(st, cap);
      var t := st.ReadTurn(out, len, cap);
      if !t.done {
        EmitLoopKeepsCursor(t.st, t.out, t.len, t.cap);
      }
    }
  }

  /** A read of a well-shaped buffer keeps the cursor at or below every remaining chunk and never
      moves it back. */
  lemma EmitKeepsCursor(st: RecvState, out: seq<Byte>)
    requires Shaped(st) && CursorBelow(st)
    ensures var st' := st.Emit(out).0;
      Shaped(st') && CursorBelow(st') && st.lastMaxoff <= st'.lastMaxoff && st'.data.Keys <= st.data.Keys
  {
    EmitLoopKeepsCursor(st, out, 0, |out|);
  }

  /** The subtractions of a read underflow exactly when the first chunk starts before the cursor. */
  lemma UnderflowIff(st: RecvState, out: seq<Byte>)
    requires Shaped(st) && st.data.Keys != {} && |out| > 0
    ensures Underflows(st, out, 0, |out|) <==> st.data[First(st.data.Keys)].Off() < st.lastMaxoff
  {
    CursorAtFirst(st);
    if CursorBelow(st) {
      EmitLoopKeepsCursor(st, out, 0, |out|);
    }
  }

  /** `[off, off + n)` overlaps no buffered chunk except one filed under the same end. */
  ghost predicate Compatible(st: RecvState, n: nat, off: nat) {
    forall k :: k in st.data && k != off + n ==> k <= off || off + n <= st.data[k].Off()
  }

  lemma StartsInside(c: RangeBuf)
    requires c.Len() > 0
    ensures c.Off() < c.MaxOff()
  {
  }

  lemma StoreShaped(st: RecvState, chunk: RangeBuf)
    requires Shaped(st) && chunk.pos == 0 && chunk.data != [] && Compatible(st, |chunk.data|, chunk.off)
    ensures Shaped(st.(data := st.data[chunk.MaxOff() := chunk]))
  {
    var end := chunk.MaxOff();
    var t := st.(data := st.data[end := chunk]);
    assert forall k :: k in t.data ==> t.data[k].Len() > 0 && t.data[k].MaxOff() == k;
    forall j, k | j in t.data && k in t.data && j < k ensures j <= t.data[k].Off() {
      if j == end {
        assert k in st.data && t.data[k] == st.data[k];
        StartsInside(st.data[k]);
      } else if k == end {
        assert j in st.data && t.data[k] == chunk;
        StartsInside(st.data[j]);
      } else {
        assert j in st.data && k in st.data && t.data[k] == st.data[k];
      }
    }
  }

  /** Shape is a matter of the stored chunks alone. */
  lemma ShapedData(st: RecvState, t: RecvState)
    requires Shaped(st) && t.data == st.data
    ensures Shaped(t)
  {
  }

  /** Storing a chunk keeps the cursor below everything exactly when the chunk is not late, that
      is, when it does not start before what was already read. */
  lemma WriteKeepsCursorIff(st: RecvState, buf: seq<Byte>, off: nat)
    requires Shaped(st) && CursorBelow(st)
    requires buf != [] && Compatible(st, |buf|, off)
    ensures Shaped(st.Write(buf, off))
    ensures CursorBelow(st.Write(buf, off)) <==> st.lastMaxoff <= off
  {
    var chunk := From(buf, off);
    StoreShaped(st, chunk);
    var t := st.Write(buf, off);
    assert t == st.(data := st.data[chunk.MaxOff() := chunk], maxRecvOff := t.maxRecvOff);
    assert t.data[chunk.MaxOff()].Off() == off;
  }

  /** A late chunk at the front blocks the buffer: a read copies nothing, removes nothing, answers
      length 0, and only pushes the cursor further, so the next read finds the same situation. */
  lemma LateChunkBlocks(st: RecvState, out: seq<Byte>)
    requires Shaped(st) && st.data.Keys != {} && out != []
    requires st.data[First(st.data.Keys)].Off() < st.lastMaxoff
    ensures st.Emit(out) == (st.Advance(|out|), Ok(ReadResult(st.Advance(|out|), out, 0)))
    ensures st.Advance(|out|).lastMaxoff > st.data[First(st.data.Keys)].Off()
  {
    assert st.ReadTurn(out, 0, |out|) == Turn(st.Advance(|out|), out, 0, |out|, true);
  }

  /** `t` holds some of the chunks of `st`, possibly consumed further. */
  ghost predicate Leaves(st: RecvState, t: RecvState) {
    forall k :: k in t.data ==> k in st.data && t.data[k].off == st.data[k].off && t.data[k].data == st.data[k].data
  }

  /** `t` holds some of the chunks of `st`, each with its end where it was. */
  ghost predicate Shrunk(st: RecvState, t: RecvState) {
    forall k :: k in t.data ==>
      k in st.data && t.data[k].Len() > 0 && t.data[k].MaxOff() == k && t.data[k].Off() >= st.data[k].Off()
  }

  lemma ShrunkShaped(st: RecvState, t: RecvState)
    requires Shaped(st) && Shrunk(st, t)
    ensures Shaped(t)
  {
    forall i, j | i in t.data && j in t.data && i < j ensures i <= t.data[j].Off() {
      assert i in st.data && j in st.data;
    }
  }

  lemma TurnShrinks(st: RecvState, cap: nat)
    requires Shaped(st) && st.data.Keys != {}
    ensures Shrunk(st, st.AfterTurn(cap)) && Leaves(st, st.AfterTurn(cap))
  {
    var k, t := First(st.data.Keys), st.AfterTurn(cap);
    forall j | j in t.data
      ensures j in st.data && t.data[j].off == st.data[j].off && t.data[j].data == st.data[j].data
      ensures t.data[j].Len() > 0 && t.data[j].MaxOff() == j && t.data[j].Off() >= st.data[j].Off()
    {
      assert j in st.data;
      if j != k {
        assert t.data[j] == st.data[j];
      }
    }
  }

  lemma AfterTurnShaped(st: RecvState, cap: nat)
    requires Shaped(st) && st.data.Keys != {}
    ensures Shaped(st.AfterTurn(cap)) && Leaves(st, st.AfterTurn(cap))
  {
    TurnShrinks(st, cap);
    hide RecvState.AfterTurn, Shaped, Shrunk, Leaves;
    ShrunkShaped(st, st.AfterTurn(cap));
  }

  /** Wherever the cursor stands, a read only consumes: no chunk changes place or content. */
  lemma {:induction false} EmitLoopLeaves(st: RecvState, out: seq<Byte>, len: nat, cap: nat)
    requires Shaped(st) && len + cap == |out|
    ensures var r := st.EmitLoop(out, len, cap); Shaped(r.st) && Leaves(st, r.st)
    decreases |st.data|
  {
    if cap == 0 || st.data.Keys == {} {
    } else {
      AfterTurnShaped(st, cap);
      var t := st.ReadTurn(out, len, cap);
      if !t.done {
        EmitLoopLeaves(t.st, t.out, t.len, t.cap);
      }
    }
  }

  // ------------------------------------------------------------ the bytes a read shows

  /** Some chunk of the buffer has this byte. */
  ghost predicate HeldByte(st: RecvState, x: Byte) {
    exists k, j :: k in st.data && 0 <= j < |st.data[k].data| && st.data[k].data[j] == x
  }

  /** The unread bytes of the chunks filed before `k`. */
  ghost function BytesBefore(data: map<nat, RangeBuf>, k: nat): nat
    requires k in data
    decreases |data|
  {
    var f := First(data.Keys);
    if f == k then 0 else data[f].Len() + BytesBefore(data - {f}, k)
  }

  /** `c`, filed under `f`, is the first chunk, `gap` behind the cursor. */
  ghost predicate Ahead(st: RecvState, f: nat, c: RangeBuf, gap: int) {
    st.data.Keys != {} && f == First(st.data.Keys) && c == st.data[f] && gap == c.Off() - st.lastMaxoff
  }

  lemma AheadFacts(st: RecvState, f: nat, c: RangeBuf, gap: int)
    requires Shaped(st) && Ahead(st, f, c, gap)
    ensures f in st.data && 0 < c.Len() <= |c.data| && c.MaxOff() == f == c.Off() + c.Len() && st.Gap(c) == gap
    ensures forall j :: j in st.data && j != f ==> j > f
    ensures CursorBelow(st) ==> gap >= 0
  {
  }

  /** A turn whose gap fits: the chunk, or what fits of it, is copied behind the gap. */
  lemma TurnReaches(st: RecvState, out: seq<Byte>, len: nat, cap: nat, f: nat, c: RangeBuf, gap: nat, n: nat)
    requires len + cap == |out| && Shaped(st) && Ahead(st, f, c, gap) && gap < cap && n == Min(c.Len(), cap - gap)
    ensures 0 < n <= |c.data| && n <= c.Len()
    ensures st.ReadTurn(out, len, cap) == Turn(
      st.(lastMaxoff := c.Off() + n, data := if n < c.Len() then st.data[f := c.Consume(n)] else st.data - {f}),
      Splice(out, len + gap, c.data[..n]), len + gap, cap - gap, n < c.Len())
  {
    AheadFacts(st, f, c, gap);
    hide Splice, Shaped, RangeBuf.Off, RangeBuf.Len, RangeBuf.MaxOff, RangeBuf.Consume, RecvState.Gap;
  }

  /** A turn whose gap does not fit shows nothing; the length is all of the buffer if the gap fills it. */
  lemma TurnSkips(st: RecvState, out: seq<Byte>, len: nat, cap: nat, f: nat, c: RangeBuf, gap: int)
    requires len + cap == |out| && cap > 0 && Shaped(st) && Ahead(st, f, c, gap) && gap >= cap
    ensures st.ReadTurn(out, len, cap)
      == Turn(st.(lastMaxoff := st.lastMaxoff + cap), out, if gap == cap then |out| else len, cap, true)
  {
    AheadFacts(st, f, c, gap);
    hide Shaped, RangeBuf.Off, RangeBuf.Len, RangeBuf.MaxOff, RangeBuf.Consume, RecvState.Gap;
  }

  lemma LoopTurn(st: RecvState, out: seq<Byte>, len: nat, cap: nat)
    requires len + cap == |out| && cap > 0 && st.data.Keys != {}
    ensures var t := st.ReadTurn(out, len, cap);
      st.EmitLoop(out, len, cap) == if t.done then ReadResult(t.st, t.out, t.len) else t.st.EmitLoop(t.out, t.len, t.cap)
  {
  }

  lemma LoopOver(st: RecvState, out: seq<Byte>, len: nat, cap: nat)
    requires len + cap == |out| && st.data.Keys == {}
    ensures st.EmitLoop(out, len, cap) == ReadResult(st, out, len)
  {
  }

  /** What the loop has done once the chunk filed under `k` was the last one it reached, `at` being where it
      stands in the buffer. */
  ghost predicate Shows(st: RecvState, out: seq<Byte>, len: nat, r: ReadResult, k: nat, at: nat)
    requires k in st.data && len <= at < |out|
  {
    var c := st.data[k];
    var n := Min(c.Len(), |out| - at);
    && 0 <= n <= |c.data| && |r.out| == |out|
    && at == len + (c.Off() - st.lastMaxoff) - BytesBefore(st.data, k)
    && r.out[at..at + n] == c.data[..n] && r.out[..len] == out[..len]
    && (forall i :: 0 <= i < |out| ==> r.out[i] == out[i] || HeldByte(st, r.out[i]))
    && Ends(st, out, r, k, at, n)
  }

  /** What is left: the chunks behind `k`, and `k` itself if it did not fit; where the cursor stands; and the
      length, which is where the last chunk stands unless the next gap fills the buffer exactly. */
  ghost predicate Ends(st: RecvState, out: seq<Byte>, r: ReadResult, k: nat, at: nat, n: nat)
    requires k in st.data && at < |out|
  {
    var c := st.data[k];
    var more := n == c.Len() && exists j :: j in st.data && j > k;
    && (forall j :: j in r.st.data <==> j in st.data && (j > k || (j == k && n < c.Len())))
    && (forall j :: j in r.st.data ==> r.st.data[j] == if j == k then c.Consume(n) else st.data[j])
    && r.st.lastMaxoff == c.Off() + n + (if more then |out| - at else 0)
    && r.len == if more && (exists j :: j in r.st.data && r.st.data[j].Off() == r.st.lastMaxoff) then |out| else at
  }

  lemma ShownBytes(st: RecvState, out: seq<Byte>, shown: seq<Byte>, k: nat, at: nat, n: nat)
    requires k in st.data && n <= |st.data[k].data| && at + n <= |out|
    requires shown == Splice(out, at, st.data[k].data[..n])
    ensures |shown| == |out| && shown[at..at + n] == st.data[k].data[..n] && shown[..at] == out[..at]
    ensures forall i :: 0 <= i < |out| ==> shown[i] == out[i] || HeldByte(st, shown[i])
  {
    forall i | 0 <= i < |out| ensures shown[i] == out[i] || HeldByte(st, shown[i]) {
      if at <= i < at + n {
        assert shown[i] == st.data[k].data[i - at];
      }
    }
  }

  /** The buffer after a turn that copied the whole first chunk and goes on. */
  ghost predicate TurnedOver(st: RecvState, out: seq<Byte>, len: nat, t: Turn, f: nat, c: RangeBuf, gap: nat) {
    && t.len == len + gap && t.len + t.cap == |out|
    && t.st == st.(lastMaxoff := c.Off() + c.Len(), data := st.data - {f})
    && |t.out| == |out| && t.out[..len] == out[..len]
    && (forall i :: 0 <= i < |out| ==> t.out[i] == out[i] || HeldByte(st, t.out[i]))
  }

  lemma HeldStays(st: RecvState, t: RecvState, x: Byte)
    requires HeldByte(t, x) && forall k :: k in t.data ==> k in st.data && st.data[k] == t.data[k]
    ensures HeldByte(st, x)
  {
    var k, j :| k in t.data && 0 <= j < |t.data[k].data| && t.data[k].data[j] == x;
    assert k in st.data && st.data[k].data[j] == x;
  }

  lemma ShowsMore(st: RecvState, out: seq<Byte>, len: nat, t: Turn, r: ReadResult, k: nat, at: nat, f: nat, c: RangeBuf, gap: nat)
    requires Shaped(st) && Ahead(st, f, c, gap) && TurnedOver(st, out, len, t, f, c, gap)
    requires k in t.st.data && t.len <= at < |out| && Shows(t.st, t.out, t.len, r, k, at)
    ensures k in st.data && Shows(st, out, len, r, k, at)
  {
    hide HeldByte, Ends, RangeBuf.Off, RangeBuf.Len, RangeBuf.MaxOff;
    AheadFacts(st, f, c, gap);
    forall i | 0 <= i < |out| ensures r.out[i] == out[i] || HeldByte(st, r.out[i]) {
      if r.out[i] != t.out[i] {
        HeldStays(st, t.st, r.out[i]);
      }
    }
    assert r.out[..len] == r.out[..t.len][..len] && t.out[..len] == t.out[..t.len][..len];
    EndsMore(st, t.st, out, t.out, r, k, at, Min(st.data[k].Len(), |out| - at), f);
  }

  lemma EndsMore(st: RecvState, t: RecvState, out: seq<Byte>, out': seq<Byte>, r: ReadResult, k: nat, at: nat, n: nat, f: nat)
    requires f in st.data && (forall j :: j in st.data && j != f ==> j > f)
    requires t.data == st.data - {f} && k in t.data && at < |out| == |out'| && Ends(t, out', r, k, at, n)
    ensures Ends(st, out, r, k, at, n)
  {
    hide RangeBuf.Off, RangeBuf.Len, RangeBuf.Consume;
    assert f < k;
    assert (exists j :: j in st.data && j > k) <==> exists j :: j in t.data && j > k by {
      if j :| j in st.data && j > k {
        assert j in t.data;
      }
    }
  }

  /** The loop ends with the first chunk because it does not fit, or because it is the only one. */
  lemma EndsWithTurn(st: RecvState, out: seq<Byte>, r: ReadResult, at: nat, n: nat, f: nat, c: RangeBuf)
    requires f in st.data && c == st.data[f] && (forall j :: j in st.data && j != f ==> j > f) && at < |out| && n <= c.Len()
    requires r.st == st.(lastMaxoff := c.Off() + n, data := if n < c.Len() then st.data[f := c.Consume(n)] else st.data - {f})
    requires r.len == at && (n < c.Len() || r.st.data.Keys == {})
    ensures Ends(st, out, r, f, at, n)
  {
    hide RangeBuf.Off, RangeBuf.Len, RangeBuf.Consume;
    if n == c.Len() {
      forall j | j in st.data ensures j == f {
        assert j != f ==> j in r.st.data.Keys;
      }
    }
  }

  /** The loop ends because the gap behind the first chunk is too long. */
  lemma EndsBeforeGap(st: RecvState, t: RecvState, out: seq<Byte>, r: ReadResult, at: nat, f: nat, c: RangeBuf, g: nat, d: RangeBuf, gap: nat)
    requires f in st.data && c == st.data[f] && (forall j :: j in st.data && j != f ==> j > f) && at < |out|
    requires t == st.(lastMaxoff := c.Off() + c.Len(), data := st.data - {f})
    requires Shaped(t) && Ahead(t, g, d, gap) && gap >= |out| - at
    requires r.st == t.(lastMaxoff := t.lastMaxoff + (|out| - at)) && r.len == if gap == |out| - at then |out| else at
    ensures Ends(st, out, r, f, at, c.Len())
  {
    AheadFacts(t, g, d, gap);
    NextInReach(t, |out| - at, g, d, gap);
    hide RangeBuf.Off, RangeBuf.Len, RangeBuf.Consume, Shaped, RecvState.Gap, RangeBuf.MaxOff;
    assert g in st.data && g > f;
    assert (exists j :: j in r.st.data && r.st.data[j].Off() == r.st.lastMaxoff) <==> gap == |out| - at;
  }

  /** Some chunk starts exactly `cap` behind the cursor if and only if the first one does. */
  lemma NextInReach(st: RecvState, cap: nat, g: nat, d: RangeBuf, gap: nat)
    requires Shaped(st) && Ahead(st, g, d, gap) && gap >= cap
    ensures (exists j :: j in st.data && st.data[j].Off() == st.lastMaxoff + cap) <==> gap == cap
  {
    AheadFacts(st, g, d, gap);
    forall j | j in st.data && j != g ensures st.data[j].Off() > d.Off() {
      BehindFirst(st, j);
    }
    if gap == cap {
      assert st.data[g].Off() == st.lastMaxoff + cap;
    }
  }

  lemma TurnState(st: RecvState, out: seq<Byte>, len: nat, cap: nat)
    requires len + cap == |out| && cap > 0 && st.data.Keys != {}
    ensures st.ReadTurn(out, len, cap).st == st.AfterTurn(cap)
  {
  }

  lemma FirstAhead(st: RecvState) returns (f: nat, c: RangeBuf, gap: int)
    requires Shaped(st) && st.data.Keys != {}
    ensures Ahead(st, f, c, gap) && f in st.data && c == st.data[f] && (CursorBelow(st) ==> gap >= 0)
  {
    f := First(st.data.Keys);
    c := st.data[f];
    gap := c.Off() - st.lastMaxoff;
    AheadFacts(st, f, c, gap);
  }

  lemma ShowsFirst(st: RecvState, out: seq<Byte>, len: nat, r: ReadResult, at: nat, n: nat, f: nat, c: RangeBuf, gap: nat)
    requires Ahead(st, f, c, gap) && f in st.data && at == len + gap < |out| && n == Min(c.Len(), |out| - at) <= |c.data|
    requires r.out == Splice(out, at, c.data[..n]) && Ends(st, out, r, f, at, n)
    ensures Shows(st, out, len, r, f, at)
  {
    hide HeldByte, Ends, Splice, RangeBuf.Off, RangeBuf.Len, RangeBuf.MaxOff;
    ShownBytes(st, out, r.out, f, at, n);
    assert r.out[..len] == r.out[..at][..len] && out[..len] == out[..at][..len];
  }

  /** The last chunk a read reaches is shown from its first byte, behind everything it skipped; every other
      byte is the caller's or one of a chunk. */
  lemma {:induction false} EmitLoopShows(st: RecvState, out: seq<Byte>, len: nat, cap: nat, f: nat, c: RangeBuf, gap: nat)
    returns (k: nat, at: nat)
    requires Shaped(st) && CursorBelow(st) && len + cap == |out| && Ahead(st, f, c, gap) && gap < cap
    ensures k in st.data && len <= at < |out| && Shows(st, out, len, st.EmitLoop(out, len, cap), k, at)
    decreases |st.data|
  {
    hide RecvState.ReadTurn, RecvState.AfterTurn, RecvState.EmitLoop, HeldByte, Ends, Splice, Shaped, CursorBelow, Shows,
      RangeBuf.Off, RangeBuf.Len, RangeBuf.MaxOff, RangeBuf.Consume, RecvState.Gap;
    AheadFacts(st, f, c, gap);
    var n, t, r := Min(c.Len(), cap - gap), st.ReadTurn(out, len, cap), st.EmitLoop(out, len, cap);
    TurnReaches(st, out, len, cap, f, c, gap, n);
    LoopTurn(st, out, len, cap);
    TurnKeepsCursor(st, cap);
    TurnState(st, out, len, cap);
    k, at := f, len + gap;
    if t.done {
      EndsWithTurn(st, out, r, at, n, f, c);
      ShowsFirst(st, out, len, r, at, n, f, c, gap);
    } else if t.st.data.Keys == {} {
      LoopOver(t.st, t.out, t.len, t.cap);
      EndsWithTurn(st, out, r, at, n, f, c);
      ShowsFirst(st, out, len, r, at, n, f, c, gap);
    } else {
      var g, d, next := FirstAhead(t.st);
      if next < t.cap {
        k, at := EmitLoopShows(t.st, t.out, t.len, t.cap, g, d, next);
        ShownBytes(st, out, t.out, f, t.len, n);
        assert t.out[..len] == t.out[..t.len][..len] && out[..len] == out[..t.len][..len];
        ShowsMore(st, out, len, t, r, k, at, f, c, gap);
      } else {
        LoopTurn(t.st, t.out, t.len, t.cap);
        TurnSkips(t.st, t.out, t.len, t.cap, g, d, next);
        EndsBeforeGap(st, t.st, out, r, at, f, c, g, d, next);
        ShowsFirst(st, out, len, r, at, n, f, c, gap);
      }
    }
  }

  /** What a read of a readable buffer does, as a whole: the last chunk in reach is shown, or, if already the
      first gap is too long, nothing is. */
  lemma EmitShows(st: RecvState, out: seq<Byte>) returns (k: nat, at: nat)
    requires Shaped(st) && CursorBelow(st) && st.data.Keys != {} && out != []
    ensures st.Emit(out).1.Ok? && st.Emit(out).0 == st.Emit(out).1.value.st
    ensures var gap := st.data[First(st.data.Keys)].Off() - st.lastMaxoff;
      if gap < |out| then
        k in st.data && at < |out| && Shows(st, out, 0, st.Emit(out).1.value, k, at)
      else
        st.Emit(out).1.value == ReadResult(st.(lastMaxoff := st.lastMaxoff + |out|), out, if gap == |out| then |out| else 0)
  {
    hide Shows, RecvState.ReadTurn, RecvState.EmitLoop, Shaped, CursorBelow;
    k, at := 0, 0;
    var f, c, gap := FirstAhead(st);
    if gap < |out| {
      k, at := EmitLoopShows(st, out, 0, |out|, f, c, gap);
    } else {
      LoopTurn(st, out, 0, |out|);
      TurnSkips(st, out, 0, |out|, f, c, gap);
    }
  }

  /** An empty buffer answers `Done`. */
  lemma EmitEmpty(st: RecvState, out: seq<Byte>)
    requires st.data == map[]
    ensures st.Emit(out) == (st, Err(Done))
  {
  }

  /** The whole answer for a single chunk in reach. A chunk that was partly read before is shown from its
      first byte again, not from where the last read left off. */
  lemma EmitSingle(st: RecvState, k: nat, c: RangeBuf, out: seq<Byte>)
    requires st.data == map[k := c] && c.MaxOff() == k && c.Len() > 0
    requires st.lastMaxoff <= c.Off() && c.Off() - st.lastMaxoff < |out|
    ensures var g := c.Off() - st.lastMaxoff;
      var n := Min(c.Len(), |out| - g);
      && n <= |c.data|
      && st.Emit(out).1.Ok?
      && st.Emit(out).1.value.out == out[..g] + c.data[..n] + out[g + n..]
      && st.Emit(out).1.value.len == g
      && st.Emit(out).0 == st.(lastMaxoff := c.Off() + n, data := if n < c.Len() then map[k := c.Consume(n)] else map[])
  {
    hide RecvState.ReadTurn, RecvState.AfterTurn, RecvState.EmitLoop, RangeBuf.Off, RangeBuf.Len, RangeBuf.Consume;
    assert First(st.data.Keys) == k;
    var gap := c.Off() - st.lastMaxoff;
    var n := Min(c.Len(), |out| - gap);
    var d := c.Consume(n);
    TurnReaches(st, out, 0, |out|, k, c, gap, n);
    LoopTurn(st, out, 0, |out|);
    assert st.data - {k} == map[] && st.data[k := d] == map[k := d];
    var t := st.ReadTurn(out, 0, |out|);
    if !t.done {
      LoopOver(t.st, t.out, t.len, t.cap);
    }
  }

  /** So two reads of one byte each show the first byte of a two-byte chunk twice. */
  lemma SplitReadRepeats(x: Byte, y: Byte, a: Byte)
    ensures var st := RecvState(map[2 := RangeBuf([x, y], 0, 0)], 0, 0);
      var first := st.Emit([a]);
      && first.1.Ok? && first.1.value.out == [x]
      && var second := first.0.Emit([a]);
         second.1.Ok? && second.1.value.out == [x] && second.0.data == map[]
  {
    var c := RangeBuf([x, y], 0, 0);
    var st := RecvState(map[2 := c], 0, 0);
    EmitSingle(st, 2, c, [a]);
    assert [a][..0] + c.data[..1] + [a][1..] == [x];
    EmitSingle(st.Emit([a]).0, 2, c.Consume(1), [a]);
  }

  /** Storing files the chunk under its end and touches nothing else; the highest offset moves to the start
      of the chunk exactly when it continues the last one. */
  lemma WriteStores(st: RecvState, buf: seq<Byte>, off: nat)
    ensures var t := st.Write(buf, off);
      && t.data == st.data[off + |buf| := RangeBuf(buf, 0, off)] && t.lastMaxoff == st.lastMaxoff
      && t.maxRecvOff == if off in st.data && (forall k :: k in st.data ==> k <= off) then off else st.maxRecvOff
  {
  }

  // ------------------------------------------------------------ the object

  class RecvBuf {
    var data: map<nat, RangeBuf>
    var lastMaxoff: nat
    var maxRecvOff: nat

    ghost function Value(): RecvState
      reads this
    {
      RecvState(data, lastMaxoff, maxRecvOff)
    }

    constructor ()
      ensures Value() == EMPTY
    {
      data, lastMaxoff, maxRecvOff := map[], 0, 0;
    }

    method Write(buf: seq<Byte>, off: nat)
      modifies this
      ensures Value() == old(Value()).Write(buf, off)
    {
      var chunk := From(buf, off);
      if data.Keys != {} {
        var k := Last(data.Keys);
        if k == off {
          maxRecvOff := off;
        }
      }
      data := data[chunk.MaxOff() := chunk];
    }

    method Emit(out: array<Byte>) returns (r: Result<nat>)
      modifies this, out
      ensures Value() == old(Value()).Emit(old(out[..])).0
      ensures match old(Value()).Emit(old(out[..])).1
        case Err(e) => r == Err(e) && unchanged(out)
        case Ok(done) => r == Ok(done.len) && out[..] == done.out
    {
      var len: nat := 0;
      var cap: nat := out.Length;
      if data.Keys == {} {
        return Err(Done);
      }
      ghost var whole := Value().EmitLoop(out[..], 0, cap);
      while cap > 0 && data.Keys != {}
        invariant len + cap == out.Length
        invariant Value().EmitLoop(out[..], len, cap) == whole
        decreases |data|
      {
        var done;
        len, cap, done := EmitTurn(out, len, cap);
        if done {
          return Ok(len);
        }
      }
      r := Ok(len);
    }

    /** One turn of the loop in `Emit`; `done` is its `break`. */
    method EmitTurn(out: array<Byte>, len0: nat, cap0: nat) returns (len: nat, cap: nat, done: bool)
      requires len0 + cap0 == out.Length && cap0 > 0 && data.Keys != {}
      modifies this, out
      ensures Turn(Value(), out[..], len, cap, done) == old(Value()).ReadTurn(old(out[..]), len0, cap0)
    {
      hide Splice;
      len, cap, done := len0, cap0, true;
      var k := First(data.Keys);
      var buf := data[k];
      var gap := buf.MaxOff() - lastMaxoff - buf.Len();
      if 0 <= gap < cap {
        cap := cap - gap;
        len := len + gap;
        var n := Min(buf.Len(), cap);
        CopyFromSlice(out, len, buf.data[..n]);
        lastMaxoff := lastMaxoff + gap + n;
        if n < buf.Len() {
          data := data[k := buf.Consume(n)];
        } else {
          data := data - {k};
          done := false;
        }
      } else if gap == cap {
        lastMaxoff := lastMaxoff + gap;
        len := len + gap;
      } else {
        lastMaxoff := lastMaxoff + cap;
      }
    }
  }
}
