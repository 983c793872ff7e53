/** The receiver's read cursor over runs: exactly when reading keeps working. */
module Reading {
  import opened Bytes
  import opened Ordered
  import opened Packet
  import opened RangeBuffer
  import opened Connection
  import opened Protocol
  import opened Safety
  import R = RecvBuffer

  /** The step delivers a data packet that starts before what the receiver has already read or
      skipped: a duplicate, a retransmission or a reordered packet. */
  ghost predicate Late(w: World, x: Action) {
    && x.DeliverB? && x.i < |w.toB| && w.toB[x.i].hdr.ty == Application
    && w.toB[x.i].hdr.offset < w.b.rcv.recBuffer.lastMaxoff
  }

  ghost predicate NeverLate(w: World, xs: seq<Action>, v: World)
    requires IsRun(w, xs, v)
    decreases xs
  {
    xs != [] ==> !Late(w, xs[0]) && NeverLate(Step(w, xs[0]), xs[1..], v)
  }

  ghost predicate Readable(w: World) {
    R.CursorBelow(w.b.rcv.recBuffer)
  }

  lemma BufferShaped(w: World)
    requires Inv(w)
    ensures R.Shaped(w.b.rcv.recBuffer)
  {
  }

  /** A buffer that has a chunk before the cursor stays that way when a chunk is stored. */
  lemma StoreStaysBlocked(st: R.RecvState, c: RangeBuf)
    requires R.Shaped(st) && !R.CursorBelow(st)
    requires c.pos == 0 && c.data != [] && (c.MaxOff() in st.data ==> c.off <= st.data[c.MaxOff()].Off())
    ensures !R.CursorBelow(st.Write(c.data, c.off))
  {
    var k :| k in st.data && st.data[k].Off() < st.lastMaxoff;
    var t := st.Write(c.data, c.off);
    assert From(c.data, c.off) == c;
    assert k in t.data && t.data[k].Off() < t.lastMaxoff;
  }

  /** The same goes for a read: it copies nothing and only pushes the cursor on. */
  lemma ReadStaysBlocked(st: R.RecvState, out: seq<Byte>)
    requires R.Shaped(st) && !R.CursorBelow(st)
    ensures !R.CursorBelow(st.Emit(out).0)
    ensures st.Emit(out).1 == Ok(R.ReadResult(st.Advance(|out|), out, 0))
  {
    R.CursorAtFirst(st);
    var k := First(st.data.Keys);
    if out == [] {
      assert st.EmitLoop(out, 0, 0) == R.ReadResult(st, out, 0);
    } else {
      R.LateChunkBlocks(st, out);
    }
    assert k in st.Emit(out).0.data;
  }

  /** A created chunk filed under the same end as a buffered one is an earlier copy of it. */
  lemma SameEnd(w: World, c: RangeBuf)
    requires Inv(w) && c in w.created && c.MaxOff() in w.b.rcv.recBuffer.data
    ensures c.off <= w.b.rcv.recBuffer.data[c.MaxOff()].Off()
  {
    hide TxInv, Counted, LogInv, SafeInv, ToBInv, ToAInv, StreamInv;
    var e := w.b.rcv.recBuffer.data[c.MaxOff()];
    var d := From(e.data, e.off);
    PieceContent(w.a.snd, w.created, c);
    PieceContent(w.a.snd, w.created, d);
    PiecesDisjoint(w.a.snd, w.created, c, d);
  }

  lemma DeliverReadable(w: World, i: nat)
    requires Inv(w) && Enabled(w, DeliverB(i)) && Defined(w, DeliverB(i))
    ensures Readable(Step(w, DeliverB(i))) <==> Readable(w) && !Late(w, DeliverB(i))
  {
    hide StreamInv, TxInv, SafeInv, LogInv, Counted, ReceiverInv, ToAInv, ConnState.RecvSlice, ConnState.CanReceive, Wire, R.CursorBelow;
    var d := w.toB[i];
    assert d in w.toB && Honest(d, w.created, w.a.snd.sentPkt, w.a.snd.ranking);
    PassiveTakes(w.b, d);
    if d.hdr.ty == Application {
      StoreReadable(w, From(d.body, d.hdr.offset));
    }
  }

  lemma StoreReadable(w: World, c: RangeBuf)
    requires Inv(w) && c in w.created
    ensures c == From(c.data, c.off)
    ensures R.CursorBelow(w.b.rcv.recBuffer.Write(c.data, c.off)) <==> Readable(w) && w.b.rcv.recBuffer.lastMaxoff <= c.off
  {
    hide StreamInv, TxInv, SafeInv, LogInv, Counted, ToAInv, ToBInv, R.CursorBelow, R.Shaped, R.Compatible, IsPiece;
    PieceContent(w.a.snd, w.created, c);
    var st := w.b.rcv.recBuffer;
    if Readable(w) {
      PieceCompatible(w.a.snd, w.b.rcv, w.created, c);
      R.WriteKeepsCursorIff(st, c.data, c.off);
    } else {
      if c.MaxOff() in st.data {
        SameEnd(w, c);
      }
      StoreStaysBlocked(st, c);
    }
  }

  /** Receiving nothing late keeps the buffer readable; anything late makes it unreadable for good. */
  lemma ReadableStep(w: World, x: Action)
    requires Inv(w) && Enabled(w, x) && Defined(w, x)
    ensures Readable(Step(w, x)) <==> Readable(w) && !Late(w, x)
  {
    hide Inv, R.CursorBelow, R.Shaped;
    match x
    case DeliverB(i) => DeliverReadable(w, i);
    case Read(out) =>
      BufferShaped(w);
      if Readable(w) {
        R.EmitKeepsCursor(w.b.rcv.recBuffer, out);
      } else {
        ReadStaysBlocked(w.b.rcv.recBuffer, out);
      }
    case SendB(out, order) => SendBKeepsBuffer(w, out, order);
    case _ =>
  }

  lemma SendBKeepsBuffer(w: World, out: seq<Byte>, order: seq<Pair>)
    requires Inv(w) && Enabled(w, SendB(out, order)) && Defined(w, SendB(out, order))
    ensures Step(w, SendB(out, order)).b.rcv.recBuffer == w.b.rcv.recBuffer
  {
    hide StreamInv, TxInv, SafeInv, ToBInv, ToAInv, LogInv, Counted, ReceiverInv, ConnState.SendData, ConnState.CanSend, AckBody;
    PassiveSends(w.b, out, order);
  }

  /** Over any run the buffer is readable exactly when nothing was ever delivered late. */
  lemma {:induction false} ReadableIff(w: World, xs: seq<Action>, v: World)
    requires Inv(w) && IsRun(w, xs, v)
    ensures Readable(v) <==> Readable(w) && NeverLate(w, xs, v)
    decreases xs
  {
    hide Inv, Readable, Late, Step, Enabled, Defined;
    if xs == [] {
    } else {
      ReadableStep(w, xs[0]);
      StepInv(w, xs[0]);
      ReadableIff(Step(w, xs[0]), xs[1..], v);
    }
  }

  /** What readable means for the next read: with it no subtraction underflows, the cursor does not
      move back and no chunk is left before it; without it nothing is ever read again. */
  lemma ReadOutcome(w: World, out: seq<Byte>)
    requires Inv(w)
    ensures var st := w.b.rcv.recBuffer;
      if Readable(w) then
        && !R.Underflows(st, out, 0, |out|)
        && st.lastMaxoff <= st.Emit(out).0.lastMaxoff && st.Emit(out).0.data.Keys <= st.data.Keys
        && R.CursorBelow(st.Emit(out).0)
      else
        && (out != [] ==> R.Underflows(st, out, 0, |out|))
        && st.Emit(out).1 == Ok(R.ReadResult(st.Advance(|out|), out, 0))
  {
    BufferShaped(w);
    hide Inv, R.Shaped;
    var st := w.b.rcv.recBuffer;
    if Readable(w) {
      R.EmitLoopKeepsCursor(st, out, 0, |out|);
      R.EmitKeepsCursor(st, out);
    } else {
      ReadStaysBlocked(st, out);
      if out != [] {
        R.CursorAtFirst(st);
        R.UnderflowIff(st, out);
      }
    }
  }

  /** After a chunk at offset 0 is stored, a read with any room moves the cursor past its start. */
  lemma ReadsFirst(st: R.RecvState, c: RangeBuf, out: seq<Byte>)
    requires R.Shaped(st) && R.CursorBelow(st) && c.off == 0 && c.pos == 0 && c.data != []
    requires c.MaxOff() in st.data && st.data[c.MaxOff()] == c && out != []
    ensures st.Emit(out).0.lastMaxoff > 0
  {
    var k := c.MaxOff();
    var f := First(st.data.Keys);
    assert st.data[f].MaxOff() == f && st.data[f].Len() > 0;
    assert f == k;
    R.TurnKeepsCursor(st, |out|);
    var t := st.ReadTurn(out, 0, |out|);
    assert t.st.lastMaxoff > 0;
    if !t.done {
      R.EmitLoopKeepsCursor(t.st, t.out, t.len, t.cap);
    }
  }

  /** One duplicate is enough: delivering the first chunk of the stream twice, with a read in
      between, leaves the receiver unreadable. */
  lemma DuplicateStalls(w: World, i: nat, out: seq<Byte>) returns (v: World)
    requires Inv(w) && i < |w.toB| && w.toB[i].hdr.ty == Application && w.toB[i].hdr.offset == 0 && out != []
    ensures IsRun(w, [DeliverB(i), Read(out), DeliverB(i)], v) && !Readable(v)
  {
    hide Inv, Step, Readable;
    var x := DeliverB(i);
    DeliveryDefined(w, i);
    var w1 := Step(w, x);
    StepInv(w, x);
    var w2 := Step(w1, Read(out));
    Delivered(w, i);
    StepInv(w1, Read(out));
    ReadOf(w1, out);
    DeliveryDefined(w2, i);
    v := Step(w2, x);
    if Readable(w1) {
      FirstDelivered(w, i, out);
    }
    ReadableStep(w1, Read(out));
    ReadableStep(w2, x);
    assert [x, Read(out), x][1..] == [Read(out), x] && [Read(out), x][1..] == [x] && [x][1..] == [];
    assert IsRun(w2, [x], v);
    assert IsRun(w1, [Read(out), x], v);
  }

  lemma DeliveryDefined(w: World, i: nat)
    requires Inv(w) && i < |w.toB|
    ensures Enabled(w, DeliverB(i)) && Defined(w, DeliverB(i))
  {
    NoPanic(w, DeliverB(i));
  }

  lemma Delivered(w: World, i: nat)
    requires Enabled(w, DeliverB(i)) && Defined(w, DeliverB(i))
    ensures Step(w, DeliverB(i)).toB == w.toB
  {
  }

  lemma ReadOf(w: World, out: seq<Byte>)
    ensures Step(w, Read(out)).toB == w.toB
    ensures Step(w, Read(out)).b.rcv.recBuffer == w.b.rcv.recBuffer.Emit(out).0
  {
  }

  lemma FirstDelivered(w: World, i: nat, out: seq<Byte>)
    requires Inv(w) && Enabled(w, DeliverB(i)) && Defined(w, DeliverB(i)) && out != []
    requires w.toB[i].hdr.ty == Application && w.toB[i].hdr.offset == 0 && Readable(Step(w, DeliverB(i)))
    ensures Step(w, DeliverB(i)).b.rcv.recBuffer.Emit(out).0.lastMaxoff > 0
  {
    hide TxInv, SafeInv, LogInv, Counted, ReceiverInv, ToAInv, StreamInv, ConnState.RecvSlice, ConnState.CanReceive, Wire, R.CursorBelow, R.Shaped,
      R.RecvState.Emit;
    var d := w.toB[i];
    assert d in w.toB && Honest(d, w.created, w.a.snd.sentPkt, w.a.snd.ranking);
    PassiveTakes(w.b, d);
    StepInv(w, DeliverB(i));
    BufferShaped(Step(w, DeliverB(i)));
    var c := From(d.body, 0);
    PieceContent(w.a.snd, w.created, c);
    ReadsFirst(Step(w, DeliverB(i)).b.rcv.recBuffer, c, out);
  }

  /** The chunk filed under `k` was the last one reached, and stands at `at` as the stream has it. */
  ghost predicate ShowsStream(st: R.RecvState, stream: seq<Byte>, out: seq<Byte>, r: R.ReadResult, k: nat, at: nat) {
    && k in st.data && at < |out| && R.Shows(st, out, 0, r, k, at)
    && var c := st.data[k];
       var n := Min(c.Len(), |out| - at);
       c.off + n <= |stream| && r.out[at..at + n] == stream[c.off..c.off + n]
  }

  /** Whatever a read shows is stream or was there before; and the last chunk it reached stands, from its
      first byte on, where the gaps before it put it. */
  lemma ReadsStream(w: World, out: seq<Byte>) returns (r: R.ReadResult, k: nat, at: nat)
    requires Inv(w) && Readable(w) && w.b.rcv.recBuffer.data.Keys != {} && out != []
    ensures w.b.rcv.recBuffer.Emit(out) == (r.st, Ok(r))
    ensures |r.out| == |out| && forall i :: 0 <= i < |out| ==> r.out[i] == out[i] || r.out[i] in w.a.snd.sendData
    ensures var st := w.b.rcv.recBuffer;
      if st.data[First(st.data.Keys)].Off() - st.lastMaxoff < |out| then ShowsStream(st, w.a.snd.sendData, out, r, k, at)
      else r.out == out
  {
    hide Inv, R.Shaped, R.RecvState.Emit, R.HeldByte, R.Ends, R.BytesBefore;
    BufferShaped(w);
    var st := w.b.rcv.recBuffer;
    k, at := R.EmitShows(st, out);
    r := st.Emit(out).1.value;
    if st.data[First(st.data.Keys)].Off() - st.lastMaxoff < |out| {
      forall i | 0 <= i < |out| && r.out[i] != out[i] ensures r.out[i] in w.a.snd.sendData {
        HeldIsStream(w, r.out[i]);
      }
      BufferedSlice(w, k);
      var c := st.data[k];
      var n := Min(c.Len(), |out| - at);
      assert c.data[..n] == w.a.snd.sendData[c.off..c.off + |c.data|][..n];
    }
  }

  /** A buffered chunk is a slice of the stream. */
  lemma BufferedSlice(w: World, k: nat)
    requires Inv(w) && k in w.b.rcv.recBuffer.data
    ensures var c, stream := w.b.rcv.recBuffer.data[k], w.a.snd.sendData;
      c.off + |c.data| <= |stream| && c.data == stream[c.off..c.off + |c.data|]
  {
    hide TxInv, Counted, LogInv, SafeInv, ToBInv, ToAInv, R.Shaped;
    var c := w.b.rcv.recBuffer.data[k];
    PieceContent(w.a.snd, w.created, From(c.data, c.off));
  }

  lemma HeldIsStream(w: World, x: Byte)
    requires Inv(w) && R.HeldByte(w.b.rcv.recBuffer, x)
    ensures x in w.a.snd.sendData
  {
    hide Inv;
    var st := w.b.rcv.recBuffer;
    var k, j :| k in st.data && 0 <= j < |st.data[k].data| && st.data[k].data[j] == x;
    BufferedSlice(w, k);
    assert w.a.snd.sendData[st.data[k].off..st.data[k].off + |st.data[k].data|][j] == w.a.snd.sendData[st.data[k].off + j];
  }
}
