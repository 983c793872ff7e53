/** The invariant of the step system and what it gives over every run. */
module Safety {
  import opened Bytes
  import opened Packet
  import opened Priority
  import opened RangeBuffer
  import opened Connection
  import opened Protocol
  import S = SendBuffer
  import R = RecvBuffer

  // ------------------------------------------------------------ growth

  /** The invariant parts that mention the histories survive their growth. */
  lemma ToBGrows(log: seq<Datagram>, created: seq<RangeBuf>, more: seq<RangeBuf>, sent: seq<Word>, sent': seq<Word>, r: Ranking)
    requires ToBInv(log, created, sent, r) && forall o :: o in sent ==> o in sent'
    ensures ToBInv(log, created + more, sent', r)
  {
  }

  lemma ToAGrows(log: seq<Datagram>, sent: seq<Word>, sent': seq<Word>, got: map<Word, Byte>, got': map<Word, Byte>)
    requires ToAInv(log, sent, got)
    requires (forall o :: o in sent ==> o in sent') && forall o :: o in got ==> o in got'
    ensures ToAInv(log, sent', got')
  {
    forall d | d in log ensures Truthful(d, sent', got') {
      if d.hdr.ty == ACK {
        var ack, ps :| IsAck(d, ack, ps, sent, got);
        assert IsAck(d, ack, ps, sent', got');
      }
    }
  }

  lemma ReceiverGrows(r: ReceiverState, stored: map<Word, seq<Byte>>, created: seq<RangeBuf>, more: seq<RangeBuf>, sent: seq<Word>, sent': seq<Word>)
    requires ReceiverInv(r, stored, created, sent) && forall o :: o in sent ==> o in sent'
    ensures ReceiverInv(r, stored, created + more, sent')
  {
  }

  lemma BeginsGrows(created: seq<RangeBuf>, more: seq<RangeBuf>, o: nat)
    requires Begins(created, o)
    ensures Begins(created + more, o)
  {
    var c :| c in created && c.off == o;
    assert c in created + more;
  }

  // ------------------------------------------------------------ pieces of the stream

  /** A created chunk is a slice of the stream. */
  lemma PieceContent(s: SenderState, created: seq<RangeBuf>, c: RangeBuf)
    requires StreamInv(s, created) && c in created
    ensures c.pos == 0 && 0 < |c.data| && c.off + |c.data| <= s.writtenData
    ensures c.data == s.sendData[c.off..c.off + |c.data|]
  {
    var i :| 0 <= i < |created| && created[i] == c;
    var d := s.sendData[..s.writtenData];
    S.CarvesAt(created, d, 0, i);
    assert d[c.off..c.off + |c.data|] == s.sendData[c.off..c.off + |c.data|];
  }

  /** Two created chunks are the same chunk or do not overlap. */
  lemma PiecesDisjoint(s: SenderState, created: seq<RangeBuf>, c: RangeBuf, d: RangeBuf)
    requires StreamInv(s, created) && c in created && d in created
    ensures c == d || c.off + |c.data| <= d.off || d.off + |d.data| <= c.off
  {
    var i :| 0 <= i < |created| && created[i] == c;
    var j :| 0 <= j < |created| && created[j] == d;
    var stream := s.sendData[..s.writtenData];
    if i < j {
      S.CarvesDisjoint(created, stream, 0, i, j);
    } else if j < i {
      S.CarvesDisjoint(created, stream, 0, j, i);
    }
  }

  lemma BeginsWritten(s: SenderState, created: seq<RangeBuf>, o: nat)
    requires StreamInv(s, created) && Begins(created, o)
    ensures o < s.writtenData
  {
    var c :| c in created && c.off == o;
    PieceContent(s, created, c);
  }

  // ------------------------------------------------------------ receiving off the wire

  lemma ReceiveWire(c: ConnState, d: Datagram)
    requires d.hdr.ty != StartAck
    ensures c.CanReceive(Wire(d)) <==> c.CanTake(d.hdr.ty, d.body)
    ensures c.CanTake(d.hdr.ty, d.body) ==> c.RecvSlice(Wire(d)) == c.Receive(d.hdr, d.body)
  {
    HeaderFields(d.hdr, d.body);
    HeaderRoundTrip(d.hdr, d.body);
    assert TypeOf(TypeCode(d.hdr.ty)) == d.hdr.ty;
  }

  // ------------------------------------------------------------ no panic

  lemma AckRanked(s: SenderState, created: seq<RangeBuf>, d: Datagram, ack: Word, ps: seq<Pair>, got: map<Word, Byte>)
    requires TxInv(s, created) && IsAck(d, ack, ps, s.sentPkt, got)
    ensures s.Ranked(ps) && s.CanProcess(d.body) && AckPairs(d.body) == ps
    ensures s.ProcessAck(d.body) == s.Absorb(ack, ps)
  {
    AckBodyRoundTrip(ack, ps);
    forall p | p in ps ensures s.ranking.Has(p.off) {
      assert TruePair(p, s.sentPkt, got) && p.off in s.sentDic;
    }
  }

  /** The step transmits a chunk. */
  ghost predicate Transmits(w: World, x: Action) {
    x.SendA? && w.a.WritePktType().1 == Ok(Application) && Sendable(w.a.snd.sendBuffer)
  }

  /** In a state that satisfies the invariant a step the environment may take panics exactly when it
      transmits a chunk of a block without a norm: no flag iterator runs out, no report names an
      unknown block, no slice is out of range. */
  lemma NoPanic(w: World, x: Action)
    requires Inv(w) && Enabled(w, x)
    ensures Defined(w, x) <==>
      (Transmits(w, x) ==> w.a.snd.ranking.Has(w.a.snd.sendBuffer.data[w.a.snd.sendBuffer.pos].off))
  {
    var s := w.a.snd;
    match x
    case SendAll => CanAlwaysWrite(s, w.created);
    case SendA(out) => FrontOffset(s, w.created);
    case SendB(out, order) =>
    case DeliverB(i) =>
      assert w.toB[i] in w.toB;
      ReceiveWire(w.b, w.toB[i]);
    case DeliverA(i) =>
      var d := w.toA[i];
      assert d in w.toA;
      ReceiveWire(w.a, d);
      if d.hdr.ty == ACK {
        var ack, ps :| IsAck(d, ack, ps, s.sentPkt, w.b.rcv.recvDic);
        AckRanked(s, w.created, d, ack, ps, w.b.rcv.recvDic);
      }
    case Read(_) =>
  }

  lemma FrontOffset(s: SenderState, created: seq<RangeBuf>)
    requires StreamInv(s, created)
    ensures var b := s.sendBuffer;
      if Sendable(b) then b.OffFront() == b.data[b.pos].off < s.writtenData else b.OffFront() >= s.writtenData
  {
    var b := s.sendBuffer;
    if Sendable(b) {
      assert b.data[b.pos] in created;
      PieceContent(s, created, b.data[b.pos]);
    }
  }

  /** If every byte of the stream has a norm, nothing panics. */
  lemma CoveredNoPanic(w: World, x: Action)
    requires Inv(w) && Enabled(w, x) && Covers(w.a.snd.ranking, |w.a.snd.sendData|)
    ensures Defined(w, x)
  {
    NoPanic(w, x);
    hide Defined, TxInv, Counted, LogInv, SafeInv, ToBInv, ToAInv, ReceiverInv;
    var b := w.a.snd.sendBuffer;
    if Transmits(w, x) {
      assert b.data[b.pos] in w.created;
      PieceContent(w.a.snd, w.created, b.data[b.pos]);
    }
  }

  lemma InvParts(w: World)
    requires Inv(w)
    ensures StreamInv(w.a.snd, w.created) && TxInv(w.a.snd, w.created) && SafeInv(w.a.snd, w.created, w.b.rcv.recvDic)
    ensures w.a.isServer && !w.a.recvFlag && Counted(w.a.snd)
  {
  }

  // ------------------------------------------------------------ steps of the sender

  /** What a `send_data` call of the sender does to its sending half, by packet type. */
  lemma SendASender(w: World, out: seq<Byte>)
    requires Inv(w) && Enabled(w, SendA(out)) && Defined(w, SendA(out))
    ensures var s, v, tail, ty := w.a.snd, Step(w, SendA(out)), out[HEADER_LENGTH..], w.a.WritePktType().1;
      && |tail| >= S.SEND_BUFFER_SIZE
      && (ty == Ok(Application) ==> s.CanSend() && !s.stopFlag && v.a.snd == s.SendApplication(tail).state)
      && (ty == Ok(ElictAck) ==> s.ackPoint <= |s.sentPkt| && v.a.snd == s.(sentCount := 0).SendElictAck(tail).state)
      && (ty != Ok(Application) && ty != Ok(ElictAck) ==> ty == Ok(Handshake) && v.a.snd == s)
      && v.reported == w.reported - Transmitted(s.sentPkt, v.a.snd.sentPkt)
      && v == w.(a := v.a, toB := v.toB, reported := v.reported)
      && v.a.isServer && !v.a.recvFlag && v.a.rcv == w.a.rcv && v.a.rttZero == w.a.rttZero
      && (ty == Ok(Application) ==> v.toB == Logged(w.toB, s.SendApplication(tail).result) || v.a.snd.IsStopped())
      && (ty == Ok(ElictAck) ==> v.toB == Logged(w.toB, s.(sentCount := 0).SendElictAck(tail).result))
      && (ty == Ok(Handshake) ==> v.toB == w.toB || v.toB == w.toB + [HELLO])
  {
    hide StreamInv, TxInv, SafeInv, LogInv, ToBInv, ToAInv, ReceiverInv, Counted,
      SenderState.SendElictAck, SenderState.SendApplication, SenderState.CanSend, ConnState.SendData;
    SendDataByType(w.a, out, []);
  }

  lemma {:induction false} InitInv(stream: seq<Byte>, ranking: Ranking)
    requires |stream| < U64
    ensures Inv(Init(stream, ranking))
  {
  }

  lemma CanAlwaysWrite(s: SenderState, created: seq<RangeBuf>)
    requires StreamInv(s, created) && Counted(s)
    ensures s.CanSendAll()
  {
    S.PositionalDrop(s.sendBuffer);
  }

  lemma KnownGrows(sent: seq<Word>, created: seq<RangeBuf>, more: seq<RangeBuf>)
    requires Known(sent, created)
    ensures Known(sent, created + more)
  {
    forall o | o in sent ensures Begins(created + more, o) {
      BeginsGrows(created, more, o);
    }
  }

  /** A write keeps the tiling and drops only what is settled. */
  lemma WriteSafe(s: SenderState, created: seq<RangeBuf>, got: map<Word, Byte>)
    requires StreamInv(s, created) && TxInv(s, created) && SafeInv(s, created, got) && s.CanSendAll()
    ensures var t, added := s.SendAll().0, Cut(s);
      && StreamInv(t, created + added) && TxInv(t, created + added) && SafeInv(t, created + added, got)
      && t.sentPkt == s.sentPkt && t.ranking == s.ranking && t.sendData == s.sendData
  {
    hide S.Carves, S.InBlock, S.Valid, S.SendState.Write, S.SendState.RecvAndDrop, S.SendState.Added, S.KeptByOffset, S.Mark,
      AllSettled, Budgets, Known, Among, SenderState.Window, S.Lead;
    KnownGrows(s.sentPkt, created, Cut(s));
    if |s.sendData| > s.writtenData || s.sendBuffer.data != [] {
      WriteTiles(s.sendBuffer, s.sendData, s.writtenData, s.Window().1, created);
      WriteSettles(s.sendBuffer, s.sendData[s.writtenData..], s.Window().1, S.Lead(s.totalOffset), s.sentPkt, s.ranking, created, got);
    } else {
      assert created + Cut(s) == created;
    }
  }

  lemma TilesExtend(stream: seq<Byte>, written: nat, created: seq<RangeBuf>, added: seq<RangeBuf>, n: nat)
    requires Tiles(stream, written, created) && written + n <= |stream|
    requires S.Carves(added, stream[written..][..n], written) && forall c :: c in added ==> S.InBlock(c)
    ensures Tiles(stream, written + n, created + added)
  {
    S.CarvesAppend(created, stream[..written], added, stream[written..][..n], 0);
    hide S.Carves, S.InBlock;
    assert stream[..written] + stream[written..][..n] == stream[..written + n];
  }

  /** A write with any window extends the tiling. */
  lemma WriteTiles(buf: S.SendState, stream: seq<Byte>, written: nat, window: nat, created: seq<RangeBuf>)
    requires Tiles(stream, written, created) && buf.off == written && S.Valid(buf) && Among(buf.data, created)
    ensures buf.CanDrop()
    ensures var input, lead := stream[written..], S.Lead(written);
      var (t, n) := buf.Write(input, window, lead);
      var all := created + buf.Added(input, window, lead);
      written + n <= |stream| && t.off == written + n && Tiles(stream, written + n, all) && S.Valid(t) && Among(t.data, all)
  {
    hide S.Carves, S.InBlock, S.Valid, S.SendState.Write, S.SendState.RecvAndDrop, S.SendState.Added, S.KeptByOffset, S.Mark;
    var input, lead := stream[written..], S.Lead(written);
    S.WriteKeepsValid(buf, input, window, lead);
    S.WriteFields(buf, input, window, lead);
    S.AddedCarves(buf, input, window, lead);
    S.AddedSized(buf, input, window);
    var added, n := buf.Added(input, window, lead), buf.Accepted(input, window);
    TilesExtend(stream, written, created, added, n);
    S.KeptMembers(buf.data, buf.offsetRecv);
    assert Among(S.KeptByOffset(buf.data, buf.offsetRecv) + added, created + added);
  }

  lemma WriteSettles(buf: S.SendState, input: seq<Byte>, window: nat, lead: nat,
                     sent: seq<Word>, r: Ranking, created: seq<RangeBuf>, got: map<Word, Byte>)
    requires S.Valid(buf) && buf.off + |input| < U64
    requires AllSettled(buf.data, buf.offsetRecv, sent, r, created, got)
    ensures buf.CanDrop()
    ensures var t := buf.Write(input, window, lead).0;
      AllSettled(t.data, t.offsetRecv, sent, r, created + buf.Added(input, window, lead), got)
  {
    S.WriteKeepsValid(buf, input, window, lead);
    S.KeptMembers(buf.data, buf.offsetRecv);
    var t, added := buf.Write(input, window, lead).0, buf.Added(input, window, lead);
    var kept := S.KeptByOffset(buf.data, buf.offsetRecv);
    assert t.data == kept + added;
    forall c | c in created + added && (c !in t.data || (c.off in t.offsetRecv && !t.offsetRecv[c.off]))
      ensures Settled(sent, r, got, c.off)
    {
      assert c !in t.data && c !in kept && c in created;
      if c in buf.data {
        S.OffsetsMember(buf.data, c.off);
        assert c.off in buf.offsetRecv && !buf.offsetRecv[c.off];
      }
    }
  }

  /** As long as the priority plus one is not exceeded, the countdown is exact. */
  lemma {:induction false} LeftExact(p: nat, t: nat)
    requires t <= p + 1 <= 4
    ensures Left(p, t) == p + 1 - t
  {
    if t == 0 {
    } else {
      LeftExact(p, t - 1);
    }
  }

  /** A budget of zero is only reached by more transmissions than the priority. */
  lemma SpentBudget(p: nat, t: nat)
    requires p <= 3 && Left(p, t) == 0
    ensures t > p
  {
    if t <= p {
      LeftExact(p, t);
    }
  }

  /** The chunk at the send position, if there is one. */
  ghost predicate Sendable(b: S.SendState) {
    b.pos < |b.data|
  }

  lemma EmitUnread(s: SenderState, created: seq<RangeBuf>, out: seq<Byte>)
    requires StreamInv(s, created) && |out| >= S.SEND_BUFFER_SIZE
    ensures s.sendBuffer.Emit(out).outOff < s.writtenData <==> Sendable(s.sendBuffer)
    ensures var e := s.sendBuffer.Emit(out);
      && e.buf.data == s.sendBuffer.data && e.buf.offsetRecv == s.sendBuffer.offsetRecv && e.buf.off == s.sendBuffer.off
      && S.Valid(e.buf)
    ensures Sendable(s.sendBuffer) ==>
      var e, c := s.sendBuffer.Emit(out), s.sendBuffer.data[s.sendBuffer.pos];
      c in created && e.outOff == c.off && e.outLen == |c.data| && e.out[..e.outLen] == c.data
  {
    var b := s.sendBuffer;
    if Sendable(b) {
      var c := b.data[b.pos];
      assert c in b.data && c in created;
      PieceContent(s, created, c);
      assert S.InBlock(c);
      S.EmitCopies(b, out);
    }
  }

  lemma ChargeKeepsBudgets(s: SenderState, off: Word)
    requires Budgets(s.sentPkt, s.sentDic, s.ranking) && s.ranking.Has(off)
    ensures Budgets(s.sentPkt + [off], s.Charge(off, s.ranking.Priority(off)), s.ranking)
  {
    var sent, dic := s.sentPkt + [off], s.Charge(off, s.ranking.Priority(off));
    forall o | o in dic ensures dic[o] == Left(Prio(s.ranking, o), Count(sent, o)) {
      CountSnoc(s.sentPkt, off, o);
    }
  }

  /** More transmissions and more arrivals keep chunks settled. */
  lemma SettledGrows(data: seq<RangeBuf>, flags: map<nat, bool>, sent: seq<Word>, x: Word, r: Ranking,
                     created: seq<RangeBuf>, got: map<Word, Byte>)
    requires AllSettled(data, flags, sent, r, created, got)
    ensures AllSettled(data, flags, sent + [x], r, created, got)
  {
    forall c | c in created && (c !in data || (c.off in flags && !flags[c.off])) ensures Settled(sent + [x], r, got, c.off) {
      assert Settled(sent, r, got, c.off);
      CountSnoc(sent, x, c.off);
    }
  }

  /** What one transmission hands out and changes. */
  lemma TransmitFields(s: SenderState, created: seq<RangeBuf>, out: seq<Byte>)
    requires StreamInv(s, created)
    requires |out| >= S.SEND_BUFFER_SIZE && Sendable(s.sendBuffer) && s.CanSend()
    ensures var r, c := s.SendApplication(out), s.sendBuffer.data[s.sendBuffer.pos];
      && c in created && c.pos == 0 && c.off < s.writtenData && |c.data| <= S.SEND_BUFFER_SIZE && s.ranking.Has(c.off)
      && r.state == s.(sendBuffer := s.sendBuffer.Emit(out).buf, sentCount := s.sentCount + 1, sentNumber := s.sentNumber + 1,
                       nextPktNum := Next(s.nextPktNum), sentDic := s.Charge(c.off, s.ranking.Priority(c.off)),
                       stopFlag := s.stopFlag || s.sendBuffer.Emit(out).stop, sentPkt := s.sentPkt + [c.off])
      && r.result == Ok(Datagram(Header(Application, s.nextPktNum, s.ranking.Priority(c.off), c.off, |c.data|), c.data))
  {
    EmitUnread(s, created, out);
    hide S.SendState.Emit, S.Valid, S.Carves, SenderState.Charge, Next;
    var c := s.sendBuffer.data[s.sendBuffer.pos];
    assert c in s.sendBuffer.data && c in created;
    PieceContent(s, created, c);
    assert S.InBlock(c);
  }

  /** What one transmission does to the counters. */
  lemma TransmitSafe(s: SenderState, created: seq<RangeBuf>, got: map<Word, Byte>, out: seq<Byte>)
    requires StreamInv(s, created) && TxInv(s, created) && SafeInv(s, created, got)
    requires |out| >= S.SEND_BUFFER_SIZE && Sendable(s.sendBuffer) && s.CanSend()
    ensures var r, c := s.SendApplication(out), s.sendBuffer.data[s.sendBuffer.pos];
      && r.result.Ok? && r.result.value.hdr.ty == Application && c.off < U64
      && r.state.sentPkt == s.sentPkt + [c.off] && r.state.ranking == s.ranking && r.state.sendData == s.sendData
      && StreamInv(r.state, created) && TxInv(r.state, created) && SafeInv(r.state, created, got)
      && Honest(r.result.value, created, r.state.sentPkt, s.ranking)
  {
    hide SenderState.SendApplication, SenderState.CanSend, S.SendState.Emit, S.Valid, Tiles, Budgets, AllSettled, SenderState.Charge;
    EmitUnread(s, created, out);
    TransmitFields(s, created, out);
    var c := s.sendBuffer.data[s.sendBuffer.pos];
    assert From(c.data, c.off) == c;
    var off: Word := c.off;
    ChargeKeepsBudgets(s, off);
    SettledGrows(s.sendBuffer.data, s.sendBuffer.offsetRecv, s.sentPkt, off, s.ranking, created, got);
    assert Known(s.sentPkt + [off], created) by {
      assert Begins(created, off);
    }
  }

  /** A solicitation changes nothing the invariant speaks of. */
  lemma ElictSafe(s: SenderState, created: seq<RangeBuf>, got: map<Word, Byte>, out: seq<Byte>)
    requires StreamInv(s, created) && TxInv(s, created) && SafeInv(s, created, got) && s.ackPoint <= |s.sentPkt|
    ensures var r := s.SendElictAck(out);
      && r.state.sentPkt == s.sentPkt && r.state.ranking == s.ranking && r.state.sendData == s.sendData
      && StreamInv(r.state, created) && TxInv(r.state, created) && SafeInv(r.state, created, got)
  {
  }

  /** A true report flags only chunks that arrived or whose budget is spent. */
  lemma FlagSettles(s: SenderState, got: map<Word, Byte>, ps: seq<Pair>, o: nat)
    requires Budgets(s.sentPkt, s.sentDic, s.ranking) && FlaggedBy(s, ps, o)
    requires forall p :: p in ps ==> TruePair(p, s.sentPkt, got)
    ensures Settled(s.sentPkt, s.ranking, got, o)
  {
    var p :| p in ps && p.off == o && (p.lost == 0 || (o in s.sentDic && s.sentDic[o] == 0));
    assert TruePair(p, s.sentPkt, got);
    if p.lost != 0 {
      SpentBudget(Prio(s.ranking, o), Count(s.sentPkt, o));
    }
  }

  /** Processing a true acknowledgement, however old. */
  lemma AbsorbSafe(s: SenderState, created: seq<RangeBuf>, got: map<Word, Byte>, ack: Word, ps: seq<Pair>)
    requires StreamInv(s, created) && TxInv(s, created) && SafeInv(s, created, got)
    requires s.Ranked(ps) && forall p :: p in ps ==> TruePair(p, s.sentPkt, got)
    ensures var t := s.Absorb(ack, ps);
      && t.sentPkt == s.sentPkt && t.ranking == s.ranking && t.sendData == s.sendData
      && StreamInv(t, created) && TxInv(t, created) && SafeInv(t, created, got)
  {
    hide Tiles, Known, S.Ascending, S.Unread;
    ProcessPairsEffect(s, ps);
    var t := s.Absorb(ack, ps);
    forall c | c in created && (c !in t.sendBuffer.data || (c.off in t.sendBuffer.offsetRecv && !t.sendBuffer.offsetRecv[c.off]))
      ensures Settled(s.sentPkt, s.ranking, got, c.off)
    {
      if c in t.sendBuffer.data && s.sendBuffer.offsetRecv[c.off] {
        FlagSettles(s, got, ps, c.off);
      }
    }
  }

  // ------------------------------------------------------------ the sender sends

  lemma LogApp(log: seq<Datagram>, sent: seq<Word>, ackPoint: nat, d: Datagram)
    requires LogInv(log, sent, ackPoint) && d.hdr.ty == Application
    ensures LogInv(log + [d], sent + [d.hdr.offset], ackPoint)
  {
    assert (log + [d])[..|log|] == log;
    assert (sent + [d.hdr.offset])[..ackPoint] == sent[..ackPoint];
  }

  lemma LogElict(log: seq<Datagram>, sent: seq<Word>, ackPoint: nat, d: Datagram)
    requires LogInv(log, sent, ackPoint) && d.hdr.ty == ElictAck && d.body == EncodeWords(sent[ackPoint..])
    ensures LogInv(log + [d], sent, |sent|)
  {
    assert (log + [d])[..|log|] == log;
    DecodeEncodeWords(sent[ackPoint..]);
    assert sent[..ackPoint] + sent[ackPoint..] == sent[..|sent|];
  }

  lemma LogOther(log: seq<Datagram>, sent: seq<Word>, ackPoint: nat, d: Datagram)
    requires LogInv(log, sent, ackPoint) && d.hdr.ty != Application && d.hdr.ty != ElictAck
    ensures LogInv(log + [d], sent, ackPoint)
  {
    assert (log + [d])[..|log|] == log;
  }

  /** The body of every solicitation is exactly the list of unasked transmissions: when the round
      has not stopped there are eight of them, so the hard-coded length of 64 bytes fits. */
  lemma ElictBody(s: SenderState, out: seq<Byte>)
    requires Counted(s) && |out| >= 64 && (s.stopFlag || (s.sentCount % ELICT_FLAG == 0 && s.sentCount > 0))
    ensures var r := s.(sentCount := 0).SendElictAck(out);
      && r.result.Ok? && r.result.value.body == EncodeWords(s.sentPkt[s.ackPoint..])
      && r.result.value.hdr.ty == ElictAck && r.result.value.hdr.pktLength == |r.result.value.body| <= 64
      && r.result.value.hdr.pktNum == s.nextElictNum && r.state.nextElictNum == Next(s.nextElictNum)
      && r.state.sentPkt == s.sentPkt && r.state.ackPoint == |s.sentPkt| && Counted(r.state)
      && r.state.stopFlag == s.stopFlag && (s.stopFlag ==> r.state.IsStopped())
  {
    var pending := EncodeWords(s.sentPkt[s.ackPoint..]);
    assert |pending| == 8 * s.sentCount;
    assert Splice(out, 0, pending)[..|pending|] == pending;
  }

  /** A transmission through the whole endpoint. */
  lemma TransmitCounted(s: SenderState, created: seq<RangeBuf>, got: map<Word, Byte>, out: seq<Byte>)
    requires StreamInv(s, created) && TxInv(s, created) && SafeInv(s, created, got) && Counted(s)
    requires |out| >= S.SEND_BUFFER_SIZE && Sendable(s.sendBuffer) && s.CanSend()
    requires !s.stopFlag && !(s.sentCount % ELICT_FLAG == 0 && s.sentCount > 0)
    ensures var r := s.SendApplication(out);
      && Counted(r.state) && !r.state.stopAck && r.state.ackPoint == s.ackPoint
      && r.result.Ok? && r.result.value.hdr.offset == s.sendBuffer.data[s.sendBuffer.pos].off
  {
    TransmitFields(s, created, out);
    hide SenderState.SendApplication, StreamInv, SenderState.CanSend, S.SendState.Emit;
  }

  lemma ResetCount(s: SenderState, created: seq<RangeBuf>, got: map<Word, Byte>)
    requires StreamInv(s, created) && TxInv(s, created) && SafeInv(s, created, got)
    ensures var t := s.(sentCount := 0); StreamInv(t, created) && TxInv(t, created) && SafeInv(t, created, got)
  {
  }

  lemma CountedPoint(s: SenderState)
    requires Counted(s)
    ensures s.ackPoint <= |s.sentPkt|
  {
  }

  lemma ElictHonest(d: Datagram, created: seq<RangeBuf>, sent: seq<Word>, i: nat, r: Ranking)
    requires i <= |sent| && d.hdr.ty == ElictAck && d.body == EncodeWords(sent[i..]) && d.hdr.pktLength == |d.body| <= 64
    ensures Honest(d, created, sent, r)
  {
    DecodeEncodeWords(sent[i..]);
  }

  lemma SendElictInv(w: World, out: seq<Byte>)
    requires Inv(w) && Enabled(w, SendA(out)) && Defined(w, SendA(out)) && w.a.WritePktType().1 == Ok(ElictAck)
    ensures Inv(Step(w, SendA(out)))
  {
    SendASender(w, out);
    hide Step, Enabled, Defined, StreamInv, TxInv, SafeInv, ToAInv, ToBInv, ReceiverInv, LogInv, SenderState.SendElictAck, Honest, Counted, ConnState.WritePktType;
    var s, got, tail := w.a.snd, w.b.rcv.recvDic, out[HEADER_LENGTH..];
    ResetCount(s, w.created, got);
    ElictBody(s, tail);
    ElictSafe(s.(sentCount := 0), w.created, got, tail);
    var d := s.(sentCount := 0).SendElictAck(tail).result.value;
    CountedPoint(s);
    LogElict(w.toB, s.sentPkt, s.ackPoint, d);
    ElictHonest(d, w.created, s.sentPkt, s.ackPoint, s.ranking);
    HonestSnoc(w.toB, d, w.created, s.sentPkt, s.ranking);
    assert Step(w, SendA(out)).toB == w.toB + [d];
  }

  lemma HonestSnoc(log: seq<Datagram>, d: Datagram, created: seq<RangeBuf>, sent: seq<Word>, r: Ranking)
    requires ToBInv(log, created, sent, r) && Honest(d, created, sent, r)
    ensures ToBInv(log + [d], created, sent, r)
  {
    hide Honest;
  }

  /** With nothing at the send position the call answers `Done` and changes no counter. */
  lemma NothingSent(s: SenderState, created: seq<RangeBuf>, got: map<Word, Byte>, out: seq<Byte>)
    requires StreamInv(s, created) && TxInv(s, created) && SafeInv(s, created, got) && Counted(s)
    requires |out| >= S.SEND_BUFFER_SIZE && !Sendable(s.sendBuffer) && s.CanSend()
    ensures var r := s.SendApplication(out);
      && r.result == Err(Done) && r.state == s.(sendBuffer := r.state.sendBuffer)
      && StreamInv(r.state, created) && TxInv(r.state, created) && SafeInv(r.state, created, got) && Counted(r.state)
  {
    EmitUnread(s, created, out);
    hide S.SendState.Emit, S.Valid, Tiles, Budgets, Known;
  }

  /** The histories after a transmission. */
  lemma HistoriesGrow(w: World, d: Datagram, sent: seq<Word>)
    requires d.hdr.ty == Application && sent == w.a.snd.sentPkt + [d.hdr.offset]
    requires LogInv(w.toB, w.a.snd.sentPkt, w.a.snd.ackPoint) && ToBInv(w.toB, w.created, w.a.snd.sentPkt, w.a.snd.ranking)
    requires ToAInv(w.toA, w.a.snd.sentPkt, w.b.rcv.recvDic) && ReceiverInv(w.b.rcv, w.stored, w.created, w.a.snd.sentPkt)
    requires Honest(d, w.created, sent, w.a.snd.ranking)
    ensures LogInv(w.toB + [d], sent, w.a.snd.ackPoint) && ToBInv(w.toB + [d], w.created, sent, w.a.snd.ranking)
    ensures ToAInv(w.toA, sent, w.b.rcv.recvDic) && ReceiverInv(w.b.rcv, w.stored, w.created, sent)
  {
    hide LogInv, ToBInv, ToAInv, ReceiverInv, Honest;
    var s, got := w.a.snd, w.b.rcv.recvDic;
    assert w.created + [] == w.created;
    ToBGrows(w.toB, w.created, [], s.sentPkt, sent, s.ranking);
    ToAGrows(w.toA, s.sentPkt, sent, got, got);
    ReceiverGrows(w.b.rcv, w.stored, w.created, [], s.sentPkt, sent);
    LogApp(w.toB, s.sentPkt, s.ackPoint, d);
    HonestSnoc(w.toB, d, w.created, sent, s.ranking);
  }

  lemma InSteps(a: ConnState)
    requires a.WritePktType().1 == Ok(Application)
    ensures !a.snd.stopFlag && !(a.snd.sentCount % ELICT_FLAG == 0 && a.snd.sentCount > 0)
  {
  }

  lemma SendAppInv(w: World, out: seq<Byte>)
    requires Inv(w) && Enabled(w, SendA(out)) && Defined(w, SendA(out)) && w.a.WritePktType().1 == Ok(Application)
    ensures Inv(Step(w, SendA(out)))
  {
    SendASender(w, out);
    hide Step, Enabled, Defined, StreamInv, TxInv, SafeInv, ToAInv, ToBInv, Counted, ReceiverInv, LogInv, Honest,
      SenderState.SendApplication, SenderState.CanSend, ConnState.WritePktType;
    var s, got, tail := w.a.snd, w.b.rcv.recvDic, out[HEADER_LENGTH..];
    var v := Step(w, SendA(out));
    if !Sendable(s.sendBuffer) {
      NothingSent(s, w.created, got, tail);
    } else {
      InSteps(w.a);
      TransmitSafe(s, w.created, got, tail);
      TransmitCounted(s, w.created, got, tail);
      var d := s.SendApplication(tail).result.value;
      assert v.toB == w.toB + [d];
      HistoriesGrow(w, d, v.a.snd.sentPkt);
    }
  }

  lemma SendAInv(w: World, out: seq<Byte>)
    requires Inv(w) && Enabled(w, SendA(out)) && Defined(w, SendA(out))
    ensures Inv(Step(w, SendA(out)))
  {
    hide Tiles, Known, S.Valid, Among, Budgets, AllSettled, Truthful, ReceiverInv, LogInv;
    var ty := w.a.WritePktType().1;
    if ty == Ok(Application) {
      SendAppInv(w, out);
    } else if ty == Ok(ElictAck) {
      SendElictInv(w, out);
    } else {
      LogOther(w.toB, w.a.snd.sentPkt, w.a.snd.ackPoint, HELLO);
      assert Honest(HELLO, w.created, w.a.snd.sentPkt, w.a.snd.ranking);
    }
  }

  lemma SendAllCounted(s: SenderState)
    requires Counted(s) && s.CanSendAll()
    ensures Counted(s.SendAll().0) && s.SendAll().0.ackPoint == s.ackPoint
  {
    hide SenderState.Window, S.SendState.Write, S.Lead;
  }

  lemma SendAllInv(w: World)
    requires Inv(w) && Defined(w, SendAll)
    ensures Inv(Step(w, SendAll))
  {
    hide StreamInv, TxInv, SafeInv, Truthful, ReceiverInv, LogInv, Honest, Cut, Counted, SenderState.SendAll, SenderState.CanSendAll;
    var s := w.a.snd;
    WriteSafe(s, w.created, w.b.rcv.recvDic);
    SendAllCounted(s);
    ToBGrows(w.toB, w.created, Cut(s), s.sentPkt, s.sentPkt, s.ranking);
    ReceiverGrows(w.b.rcv, w.stored, w.created, Cut(s), s.sentPkt, s.sentPkt);
  }

  // ------------------------------------------------------------ the receiver's steps

  ghost predicate Passive(b: ConnState) {
    !b.isServer && b.rttZero && b.snd == NewSender([], NO_RANKING)
  }

  /** The receiver sends handshakes, stops and acknowledgements of its pending reports. */
  lemma PassiveSends(b: ConnState, out: seq<Byte>, order: seq<Pair>)
    requires Passive(b) && b.CanSend(out)
    ensures var r := b.SendData(out, order);
      && Passive(r.state)
      && r.state.rcv.recvDic == b.rcv.recvDic && r.state.rcv.recBuffer == b.rcv.recBuffer
      && (r.state.rcv.recvHashmap == b.rcv.recvHashmap || r.state.rcv.recvHashmap == map[])
      && (r.result.Ok? ==>
            var d := r.result.value;
            if d.hdr.ty == ACK then d.body == AckBody(b.rcv.recBuffer.maxRecvOff % U64, order)
            else d.hdr.ty == Handshake || d.hdr.ty == Type.Stop)
  {
    hide AckBody, ConnState.SendData;
    if out != [] {
      SendDataByType(b, out, order);
    } else {
      SendDataEmpty(b, order);
    }
  }

  lemma SendDataEmpty(b: ConnState, order: seq<Pair>)
    requires b.CanSend([])
    ensures b.SendData([], order) == Sent(b, Err(BufferTooShort))
  {
  }

  lemma ReceiverKeeps(r: ReceiverState, r': ReceiverState, stored: map<Word, seq<Byte>>, created: seq<RangeBuf>, sent: seq<Word>)
    requires ReceiverInv(r, stored, created, sent)
    requires r'.recvDic == r.recvDic && r'.recBuffer == r.recBuffer
    requires forall o :: o in r'.recvHashmap ==> TruePair(Pair(o, r'.recvHashmap[o]), sent, r.recvDic)
    ensures ReceiverInv(r', stored, created, sent)
  {
    hide R.Shaped, IsPiece;
  }

  lemma ReportsTrue(r: ReceiverState, stored: map<Word, seq<Byte>>, created: seq<RangeBuf>, sent: seq<Word>)
    requires ReceiverInv(r, stored, created, sent)
    ensures forall o :: o in r.recvHashmap ==> TruePair(Pair(o, r.recvHashmap[o]), sent, r.recvDic)
  {
  }

  lemma SendBInv(w: World, out: seq<Byte>, order: seq<Pair>)
    requires Inv(w) && Enabled(w, SendB(out, order)) && Defined(w, SendB(out, order))
    ensures Inv(Step(w, SendB(out, order)))
  {
    hide StreamInv, TxInv, SafeInv, ToBInv, LogInv, Counted, ReceiverInv, ConnState.SendData, ConnState.CanSend, AckBody;
    var r, sent := w.b.rcv, w.a.snd.sentPkt;
    PassiveSends(w.b, out, order);
    ReportsTrue(r, w.stored, w.created, sent);
    var sends := w.b.SendData(out, order);
    ReceiverKeeps(r, sends.state.rcv, w.stored, w.created, sent);
    if sends.result.Ok? {
      var d := sends.result.value;
      assert Truthful(d, sent, r.recvDic) by {
        if d.hdr.ty == ACK {
          assert IsAck(d, r.recBuffer.maxRecvOff % U64, order, sent, r.recvDic);
        }
      }
    }
  }

  lemma {:induction false} CheckLossTrue(r: ReceiverState, offs: seq<Word>, sent: seq<Word>)
    requires forall o :: o in r.recvHashmap ==> TruePair(Pair(o, r.recvHashmap[o]), sent, r.recvDic)
    requires forall o :: o in offs ==> o in sent
    ensures forall o :: o in r.CheckLoss(offs) ==> TruePair(Pair(o, r.CheckLoss(offs)[o]), sent, r.recvDic)
  {
    if offs == [] {
    } else {
      CheckLossTrue(r, offs[..|offs| - 1], sent);
    }
  }

  /** A created chunk overlaps nothing in the receive buffer but an earlier copy of itself. */
  lemma PieceCompatible(s: SenderState, r: ReceiverState, created: seq<RangeBuf>, c: RangeBuf)
    requires StreamInv(s, created) && c in created && R.Shaped(r.recBuffer)
    requires forall k :: k in r.recBuffer.data ==> IsPiece(created, r.recBuffer.data[k].off, r.recBuffer.data[k].data)
    ensures R.Compatible(r.recBuffer, |c.data|, c.off)
  {
    hide StreamInv;
    PieceContent(s, created, c);
    forall k | k in r.recBuffer.data && k != c.off + |c.data|
      ensures k <= c.off || c.off + |c.data| <= r.recBuffer.data[k].Off()
    {
      var d := r.recBuffer.data[k];
      PieceContent(s, created, From(d.data, d.off));
      PiecesDisjoint(s, created, c, From(d.data, d.off));
    }
  }

  lemma StoredShape(s: SenderState, r: ReceiverState, created: seq<RangeBuf>, c: RangeBuf)
    requires StreamInv(s, created) && c in created && R.Shaped(r.recBuffer)
    requires forall k :: k in r.recBuffer.data ==> IsPiece(created, r.recBuffer.data[k].off, r.recBuffer.data[k].data)
    ensures c == From(c.data, c.off)
    ensures var t := r.recBuffer.Write(c.data, c.off);
      R.Shaped(t) && t.data == r.recBuffer.data[c.off + |c.data| := c]
  {
    hide StreamInv, R.Shaped, R.Compatible, IsPiece;
    PieceContent(s, created, c);
    PieceCompatible(s, r, created, c);
    R.StoreShaped(r.recBuffer, c);
    var t := r.recBuffer.Write(c.data, c.off);
    R.ShapedData(r.recBuffer.(data := t.data), t);
  }

  lemma StoredPieces(r: ReceiverState, created: seq<RangeBuf>, c: RangeBuf, data: map<nat, RangeBuf>, key: nat)
    requires IsPiece(created, c.off, c.data) && data == r.recBuffer.data[key := c]
    requires forall k :: k in r.recBuffer.data ==> IsPiece(created, r.recBuffer.data[k].off, r.recBuffer.data[k].data)
    ensures forall k :: k in data ==> IsPiece(created, data[k].off, data[k].data)
  {
    hide IsPiece;
    forall k | k in data ensures IsPiece(created, data[k].off, data[k].data) {
      assert k != key ==> k in r.recBuffer.data;
    }
  }

  lemma StoredReports(r: ReceiverState, sent: seq<Word>, got: map<Word, Byte>)
    requires forall o :: o in r.recvHashmap ==> TruePair(Pair(o, r.recvHashmap[o]), sent, r.recvDic)
    requires forall o :: o in r.recvDic ==> o in got
    ensures forall o :: o in r.recvHashmap ==> TruePair(Pair(o, r.recvHashmap[o]), sent, got)
  {
    forall o | o in r.recvHashmap ensures TruePair(Pair(o, r.recvHashmap[o]), sent, got) {
      assert TruePair(Pair(o, r.recvHashmap[o]), sent, r.recvDic);
    }
  }

  /** Storing a created chunk, new or duplicate, keeps the receive buffer well shaped. */
  lemma StoreInv(s: SenderState, r: ReceiverState, stored: map<Word, seq<Byte>>, created: seq<RangeBuf>,
                 off: Word, priority: Byte, body: seq<Byte>)
    requires StreamInv(s, created) && ReceiverInv(r, stored, created, s.sentPkt) && IsPiece(created, off, body)
    ensures ReceiverInv(r.Store(off, priority, body), stored[off := body], created, s.sentPkt)
  {
    hide StreamInv, R.Shaped, R.RecvState.Write, TruePair, IsPiece;
    var c := From(body, off);
    CreatedPiece(created, off, body);
    StoredShape(s, r, created, c);
    var t := r.Store(off, priority, body);
    StoredPieces(r, created, c, t.recBuffer.data, off + |body|);
    StoredReports(r, s.sentPkt, t.recvDic);
  }

  lemma CreatedPiece(created: seq<RangeBuf>, off: nat, bytes: seq<Byte>)
    ensures IsPiece(created, off, bytes) <==> From(bytes, off) in created
  {
  }

  /** What an honest datagram does to the receiver. */
  lemma PassiveTakes(b: ConnState, d: Datagram)
    requires Passive(b) && (d.hdr.ty == Application || d.hdr.ty == Handshake || (d.hdr.ty == ElictAck && |d.body| % 8 == 0))
    ensures b.CanReceive(Wire(d))
    ensures var b' := b.RecvSlice(Wire(d)).0;
      && Passive(b')
      && b'.rcv == (if d.hdr.ty == Application then b.rcv.Store(d.hdr.offset, d.hdr.priority, d.body)
                    else if d.hdr.ty == ElictAck then b.rcv.Solicited(d.hdr.pktNum, DecodeWords(d.body))
                    else b.rcv)
  {
    ReceiveWire(b, d);
  }

  lemma DeliverBInv(w: World, i: nat)
    requires Inv(w) && Enabled(w, DeliverB(i)) && Defined(w, DeliverB(i))
    ensures Inv(Step(w, DeliverB(i)))
  {
    hide StreamInv, TxInv, SafeInv, LogInv, Counted, ReceiverInv, ToAInv, ConnState.RecvSlice, ConnState.CanReceive, Wire;
    var s, r, d := w.a.snd, w.b.rcv, w.toB[i];
    assert d in w.toB && Honest(d, w.created, s.sentPkt, s.ranking);
    PassiveTakes(w.b, d);
    if d.hdr.ty == ElictAck {
      ReportsTrue(r, w.stored, w.created, s.sentPkt);
      CheckLossTrue(r, DecodeWords(d.body), s.sentPkt);
      ReceiverKeeps(r, r.Solicited(d.hdr.pktNum, DecodeWords(d.body)), w.stored, w.created, s.sentPkt);
    } else if d.hdr.ty == Application {
      var r' := r.Store(d.hdr.offset, d.hdr.priority, d.body);
      StoreInv(s, r, w.stored, w.created, d.hdr.offset, d.hdr.priority, d.body);
      ToAGrows(w.toA, s.sentPkt, s.sentPkt, r.recvDic, r'.recvDic);
      ArrivalSettles(s, w.created, r.recvDic, r'.recvDic);
    }
  }

  lemma ArrivalSettles(s: SenderState, created: seq<RangeBuf>, got: map<Word, Byte>, got': map<Word, Byte>)
    requires SafeInv(s, created, got) && forall o :: o in got ==> o in got'
    ensures SafeInv(s, created, got')
  {
  }

  lemma SenderTakes(a: ConnState, d: Datagram)
    requires a.isServer && (d.hdr.ty == ACK || d.hdr.ty == Handshake || d.hdr.ty == Type.Stop) && a.CanReceive(Wire(d))
    ensures d.hdr.ty == ACK ==> a.snd.CanProcess(d.body)
    ensures var c := a.RecvSlice(Wire(d)).0;
      && c.isServer && c.recvFlag == a.recvFlag && c.rcv == a.rcv && (c.rttZero ==> a.rttZero)
      && c.snd == if d.hdr.ty == ACK then a.snd.ProcessAck(d.body) else a.snd
  {
    hide SenderState.ProcessAck, SenderState.CanProcess, ConnState.RecvSlice, ConnState.CanReceive, Wire;
    ReceiveWire(a, d);
  }

  lemma NothingNamed(s: SenderState)
    ensures Named([]) == {} && s.Ranked([])
  {
  }

  /** What a datagram delivered to the sender does to it: the reports it carries, if any. */
  lemma DeliverASender(w: World, i: nat) returns (ack: Word, ps: seq<Pair>)
    requires Inv(w) && Enabled(w, DeliverA(i)) && Defined(w, DeliverA(i))
    ensures var s, v := w.a.snd, Step(w, DeliverA(i));
      && s.Ranked(ps) && (forall p :: p in ps ==> TruePair(p, s.sentPkt, w.b.rcv.recvDic))
      && (v.a.snd == s.Absorb(ack, ps) || (v.a.snd == s && ps == []))
      && (w.toA[i].hdr.ty == ACK ==> |w.toA[i].body| % 16 == 8 && AckPairs(w.toA[i].body) == ps && v.a.snd == s.Absorb(ack, ps))
      && v.reported == w.reported + Named(ps)
      && v == w.(a := v.a, reported := v.reported)
      && v.a.isServer && v.a.recvFlag == w.a.recvFlag && v.a.rcv == w.a.rcv && (v.a.rttZero ==> w.a.rttZero)
  {
    hide LogInv, ToBInv, ReceiverInv, StreamInv, TxInv, SafeInv, Counted, IsAck, SenderState.Absorb, SenderState.ProcessAck,
      ConnState.RecvSlice, ConnState.CanReceive, Wire, Named, TruePair, SenderState.CanProcess, SenderState.Ranked;
    var s, got, d := w.a.snd, w.b.rcv.recvDic, w.toA[i];
    assert d in w.toA && Truthful(d, s.sentPkt, got);
    SenderTakes(w.a, d);
    if d.hdr.ty == ACK {
      ack, ps :| IsAck(d, ack, ps, s.sentPkt, got);
      AckRanked(s, w.created, d, ack, ps, got);
      AckTrue(s, d, ack, ps, got);
    } else {
      ack, ps := 0, [];
      NothingNamed(s);
    }
  }

  lemma DeliverAInv(w: World, i: nat)
    requires Inv(w) && Enabled(w, DeliverA(i)) && Defined(w, DeliverA(i))
    ensures Inv(Step(w, DeliverA(i)))
  {
    var ack, ps := DeliverASender(w, i);
    hide Step, Enabled, Defined, LogInv, ToBInv, ToAInv, ReceiverInv, StreamInv, TxInv, SafeInv, SenderState.Absorb, TruePair, SenderState.Ranked;
    AbsorbSafe(w.a.snd, w.created, w.b.rcv.recvDic, ack, ps);
    AbsorbFrame(w.a.snd, ack, ps);
  }

  lemma AckTrue(s: SenderState, d: Datagram, ack: Word, ps: seq<Pair>, got: map<Word, Byte>)
    requires IsAck(d, ack, ps, s.sentPkt, got)
    ensures forall p :: p in ps ==> TruePair(p, s.sentPkt, got)
  {
  }

  /** Acknowledgements do not touch the counters of the round. */
  lemma AbsorbFrame(s: SenderState, ack: Word, ps: seq<Pair>)
    requires s.Ranked(ps)
    ensures var t := s.Absorb(ack, ps);
      t == s.(sendBuffer := t.sendBuffer, highPriority := t.highPriority, maxOff := t.maxOff, recovery := t.recovery)
    ensures s.Absorb(ack, ps).sendBuffer == s.sendBuffer.(offsetRecv := s.Absorb(ack, ps).sendBuffer.offsetRecv)
  {
    ProcessPairsEffect(s, ps);
  }

  lemma ReadInv(w: World, out: seq<Byte>)
    requires Inv(w)
    ensures Inv(Step(w, Read(out)))
  {
    hide StreamInv, TxInv, SafeInv, ToBInv, LogInv, Counted, ToAInv, R.Shaped;
    R.EmitLoopLeaves(w.b.rcv.recBuffer, out, 0, |out|);
  }

  // ------------------------------------------------------------ every step, every run

  lemma StepInv(w: World, x: Action)
    requires Inv(w) && Enabled(w, x) && Defined(w, x)
    ensures Inv(Step(w, x))
  {
    hide Inv, Step, Defined, Enabled;
    match x
    case SendAll => SendAllInv(w);
    case SendA(out) => SendAInv(w, out);
    case SendB(out, order) => SendBInv(w, out, order);
    case DeliverB(i) => DeliverBInv(w, i);
    case DeliverA(i) => DeliverAInv(w, i);
    case Read(out) => ReadInv(w, out);
  }

  lemma {:induction false} RunInv(w: World, xs: seq<Action>, v: World)
    requires Inv(w) && IsRun(w, xs, v)
    ensures Inv(v)
    decreases xs
  {
    if xs == [] {
    } else {
      StepInv(w, xs[0]);
      RunInv(Step(w, xs[0]), xs[1..], v);
    }
  }
}
