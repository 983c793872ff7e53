/** The main results, over every run of sender, receiver and network from the start. */
module Theorems {
  import opened Bytes
  import opened Packet
  import opened Priority
  import opened RangeBuffer
  import opened Connection
  import opened Protocol
  import opened Safety
  import opened Rounds
  import opened Budget
  import opened Reading
  import opened Ordered
  import S = SendBuffer
  import R = RecvBuffer

  /** The actions `xs` lead from the start to `w`; offsets are 64-bit, so the stream is shorter. */
  ghost predicate Reaches(stream: seq<Byte>, ranking: Ranking, xs: seq<Action>, w: World) {
    |stream| < U64 && IsRun(Init(stream, ranking), xs, w)
  }

  lemma {:induction false} InitRound(stream: seq<Byte>, ranking: Ranking)
    ensures RoundInv(Init(stream, ranking)) && ReportInv(Init(stream, ranking)) && Readable(Init(stream, ranking))
    ensures WithinBudget(Init(stream, ranking).a.snd) && AccountsInv(Init(stream, ranking))
  {
    assert S.Offsets([]) == [];
    EmptySpan(Init(stream, ranking).a.snd);
  }

  lemma ReachesInv(stream: seq<Byte>, ranking: Ranking, xs: seq<Action>, w: World)
    requires Reaches(stream, ranking, xs, w)
    ensures Inv(w) && w.a.snd.sendData == stream && w.a.snd.ranking == ranking
  {
    InitInv(stream, ranking);
    RunInv(Init(stream, ranking), xs, w);
    RunKeepsInput(Init(stream, ranking), xs, w);
  }

  // ------------------------------------------------------------ the input is constant

  lemma SendAKeepsInput(w: World, out: seq<Byte>)
    requires Inv(w) && Enabled(w, SendA(out)) && Defined(w, SendA(out))
    ensures var s, t := w.a.snd, Step(w, SendA(out)).a.snd; t.sendData == s.sendData && t.ranking == s.ranking
  {
    SendASender(w, out);
    hide Inv, Step, Enabled, Defined, S.SendState.Emit, ConnState.WritePktType;
  }

  lemma KeepsInput(w: World, x: Action)
    requires Inv(w) && Enabled(w, x) && Defined(w, x)
    ensures var s, t := w.a.snd, Step(w, x).a.snd; t.sendData == s.sendData && t.ranking == s.ranking
  {
    hide Inv, ConnState.SendData, ConnState.RecvSlice, ConnState.CanSend, ConnState.CanReceive, S.SendState.Write, SenderState.Window;
    match x
    case SendA(out) => SendAKeepsInput(w, out);
    case DeliverA(i) => DeliverAFrame(w, i);
    case _ =>
  }

  lemma {:induction false} RunKeepsInput(w: World, xs: seq<Action>, v: World)
    requires Inv(w) && IsRun(w, xs, v)
    ensures v.a.snd.sendData == w.a.snd.sendData && v.a.snd.ranking == w.a.snd.ranking
    decreases xs
  {
    hide Inv, Step, Enabled, Defined;
    if xs == [] {
    } else {
      KeepsInput(w, xs[0]);
      StepInv(w, xs[0]);
      RunKeepsInput(Step(w, xs[0]), xs[1..], v);
    }
  }

  // ------------------------------------------------------------ drop safety

  /** The receiver has the chunk, bytes and all. */
  ghost predicate Received(w: World, c: RangeBuf) {
    c.off < U64 && c.off in w.b.rcv.recvDic && c.off in w.stored && w.stored[c.off] == c.data
  }

  lemma SettledReceived(w: World, c: RangeBuf)
    requires Inv(w) && c in w.created && c !in w.a.snd.sendBuffer.data
    ensures Received(w, c) || Count(w.a.snd.sentPkt, c.off) > Prio(w.a.snd.ranking, c.off)
  {
    hide TxInv, Counted, LogInv, ToBInv, ToAInv, StreamInv, Count, Prio, R.Shaped;
    PieceContent(w.a.snd, w.created, c);
    if c.off in w.b.rcv.recvDic {
      var d := From(w.stored[c.off], c.off);
      assert d in w.created;
      PieceContent(w.a.snd, w.created, d);
      PiecesDisjoint(w.a.snd, w.created, c, d);
    }
  }

  /** Drop safety: whatever is lost, duplicated, reordered or acknowledged late, a chunk that has left
      the sender's queue was stored by the receiver, or was sent more often than its priority. */
  lemma DropSafety(stream: seq<Byte>, ranking: Ranking, xs: seq<Action>, w: World, c: RangeBuf)
    requires Reaches(stream, ranking, xs, w)
    requires c in w.created && c !in w.a.snd.sendBuffer.data
    ensures Received(w, c) || Count(w.a.snd.sentPkt, c.off) > Prio(ranking, c.off)
  {
    ReachesInv(stream, ranking, xs, w);
    hide Inv;
    SettledReceived(w, c);
  }

  /** A chunk that left the queue without arriving was sent exactly priority plus one times if and only
      if it was never itself transmitted on an empty budget entry. */
  lemma DropSafetyExact(stream: seq<Byte>, ranking: Ranking, xs: seq<Action>, w: World, c: RangeBuf)
    requires Reaches(stream, ranking, xs, w)
    requires c in w.created && c !in w.a.snd.sendBuffer.data && !Received(w, c)
    ensures Count(w.a.snd.sentPkt, c.off) == Prio(ranking, c.off) + 1 <==> NeverAt(Init(stream, ranking), xs, w, c.off)
  {
    hide Inv, IsRun, NeverAt, Received, Prio;
    DropSafety(stream, ranking, xs, w, c);
    ReachesInv(stream, ranking, xs, w);
    InitInv(stream, ranking);
    NothingSentYet(stream, ranking, c.off);
    BudgetAtIff(Init(stream, ranking), xs, w, c.off);
  }

  lemma NothingSentYet(stream: seq<Byte>, ranking: Ranking, o: nat)
    ensures Within(Init(stream, ranking).a.snd, o)
  {
  }

  // ------------------------------------------------------------ the retransmission budget

  /** The budget is exceeded in a run exactly when some transmission meets an entry of 0, which the
      decrement then takes below zero. */
  lemma BudgetExact(stream: seq<Byte>, ranking: Ranking, xs: seq<Action>, w: World)
    requires Reaches(stream, ranking, xs, w)
    ensures NeverOverspends(Init(stream, ranking), xs, w) <==>
      (forall o :: o in w.a.snd.sentPkt ==> Count(w.a.snd.sentPkt, o) <= Prio(ranking, o) + 1)
  {
    hide Inv, IsRun, NeverOverspends;
    ReachesInv(stream, ranking, xs, w);
    InitInv(stream, ranking);
    InitRound(stream, ranking);
    BudgetIff(Init(stream, ranking), xs, w);
  }

  /** Conservation: if every `send_all`, mid-round or not, comes with a report processed on each
      transmitted chunk of the queue, then entry plus transmissions is priority plus one, nothing underflows, nothing is sent
      more often, and what left the queue arrived or was sent exactly that often. */
  lemma BudgetConserved(stream: seq<Byte>, ranking: Ranking, xs: seq<Action>, w: World)
    requires Reaches(stream, ranking, xs, w) && Reported(Init(stream, ranking), xs, w)
    ensures NeverOverspends(Init(stream, ranking), xs, w)
    ensures var s := w.a.snd;
      && (forall o :: o in s.sentPkt ==> o in s.sentDic && s.sentDic[o] + Count(s.sentPkt, o) == Prio(ranking, o) + 1)
      && (forall c :: c in w.created && c !in s.sendBuffer.data ==> Received(w, c) || Count(s.sentPkt, c.off) == Prio(ranking, c.off) + 1)
  {
    hide Inv, IsRun, Received, NeverOverspends, NeverAt, Prio, ReportInv, Reported;
    ReachesInv(stream, ranking, xs, w);
    InitInv(stream, ranking);
    InitRound(stream, ranking);
    ReportedRun(Init(stream, ranking), xs, w);
    BudgetIff(Init(stream, ranking), xs, w);
    forall o | o in w.a.snd.sentPkt
      ensures o in w.a.snd.sentDic && w.a.snd.sentDic[o] + Count(w.a.snd.sentPkt, o) == Prio(ranking, o) + 1
    {
      Conserved(w, o);
    }
    forall c | c in w.created && c !in w.a.snd.sendBuffer.data
      ensures Received(w, c) || Count(w.a.snd.sentPkt, c.off) == Prio(ranking, c.off) + 1
    {
      if !Received(w, c) {
        NeverAny(Init(stream, ranking), xs, w, c.off);
        DropSafetyExact(stream, ranking, xs, w, c);
      }
    }
  }

  /** So a transfer needs no more transmissions than all budgets together: at most four per chunk. */
  lemma TransmissionsBounded(stream: seq<Byte>, ranking: Ranking, xs: seq<Action>, w: World)
    requires Reaches(stream, ranking, xs, w) && NeverOverspends(Init(stream, ranking), xs, w)
    ensures |DataOffsets(w.toB)| <= Allowance(w.created, ranking) <= 4 * |w.created|
  {
    hide IsRun, NeverOverspends, Inv, DataOffsets, Prio;
    BudgetExact(stream, ranking, xs, w);
    ReachesInv(stream, ranking, xs, w);
    SentOffsets(w);
    WithinAllowance(w.a.snd.sentPkt, w.created, ranking);
    FourEach(w.created, ranking);
  }

  lemma SentOffsets(w: World)
    requires Inv(w)
    ensures DataOffsets(w.toB) == w.a.snd.sentPkt && forall o :: o in w.a.snd.sentPkt ==> Begins(w.created, o)
  {
  }

  lemma {:induction false} FourEach(cs: seq<RangeBuf>, r: Ranking)
    ensures Allowance(cs, r) <= 4 * |cs|
  {
    if cs == [] {
    } else {
      FourEach(cs[..|cs| - 1], r);
    }
  }

  // ------------------------------------------------------------ content agreement

  ghost predicate IsSlice(stream: seq<Byte>, off: nat, bytes: seq<Byte>) {
    off + |bytes| <= |stream| && bytes == stream[off..off + |bytes|]
  }

  /** `bytes` are held for offset `off` in the queue, in flight, in the receive buffer or in store. */
  ghost predicate Holds(w: World, off: nat, bytes: seq<Byte>) {
    || RangeBuf(bytes, 0, off) in w.a.snd.sendBuffer.data
    || (exists d :: d in w.toB && d.hdr.ty == Application && d.hdr.offset == off && d.body == bytes)
    || (exists k :: k in w.b.rcv.recBuffer.data && w.b.rcv.recBuffer.data[k].off == off && w.b.rcv.recBuffer.data[k].data == bytes)
    || (off < U64 && off in w.stored && w.stored[off] == bytes)
  }

  lemma HeldPiece(w: World, off: nat, bytes: seq<Byte>)
    requires Inv(w) && Holds(w, off, bytes)
    ensures From(bytes, off) in w.created
  {
    hide TxInv, Counted, LogInv, ToAInv, Tiles, S.Valid, R.Shaped;
  }

  /** Wherever a chunk is held, its bytes are those of the stream at its offset. */
  lemma ContentAgreement(stream: seq<Byte>, ranking: Ranking, xs: seq<Action>, w: World, off: nat, bytes: seq<Byte>)
    requires Reaches(stream, ranking, xs, w) && Holds(w, off, bytes)
    ensures IsSlice(stream, off, bytes) && bytes != []
  {
    ReachesInv(stream, ranking, xs, w);
    hide TxInv, Counted, LogInv, ToAInv, ToBInv, ReceiverInv, SafeInv, Holds;
    HeldPiece(w, off, bytes);
    PieceContent(w.a.snd, w.created, From(bytes, off));
  }

  /** Chunks held anywhere at different offsets are disjoint; at the same offset they are the same. */
  lemma ChunksAgree(stream: seq<Byte>, ranking: Ranking, xs: seq<Action>, w: World, o: nat, a: seq<Byte>, p: nat, b: seq<Byte>)
    requires Reaches(stream, ranking, xs, w) && Holds(w, o, a) && Holds(w, p, b)
    ensures o == p ==> a == b
    ensures o < p ==> o + |a| <= p
  {
    ReachesInv(stream, ranking, xs, w);
    hide TxInv, Counted, LogInv, ToAInv, ToBInv, ReceiverInv, SafeInv, Holds;
    HeldPiece(w, o, a);
    HeldPiece(w, p, b);
    PieceContent(w.a.snd, w.created, From(a, o));
    PieceContent(w.a.snd, w.created, From(b, p));
    PiecesDisjoint(w.a.snd, w.created, From(a, o), From(b, p));
  }

  /** The chunks ever created are the written part of the stream, cut once, in order. */
  lemma StreamCut(stream: seq<Byte>, ranking: Ranking, xs: seq<Action>, w: World)
    requires Reaches(stream, ranking, xs, w)
    ensures var s := w.a.snd;
      && s.sendBuffer.off == s.writtenData == s.totalOffset <= |stream|
      && S.Concat(w.created) == stream[..s.writtenData]
      && (forall c :: c in w.created ==> IsSlice(stream, c.off, c.data))
      && (forall i, j :: 0 <= i < j < |w.created| ==> w.created[i].off + |w.created[i].data| <= w.created[j].off)
  {
    ReachesInv(stream, ranking, xs, w);
    hide TxInv, Counted, LogInv, ToAInv, ToBInv, ReceiverInv, SafeInv, S.Carves, S.Valid;
    var s := w.a.snd;
    S.CarvesConcat(w.created, s.sendData[..s.writtenData], 0);
    forall c | c in w.created ensures IsSlice(stream, c.off, c.data) {
      PieceContent(s, w.created, c);
    }
    forall i, j | 0 <= i < j < |w.created| ensures w.created[i].off + |w.created[i].data| <= w.created[j].off {
      S.CarvesDisjoint(w.created, s.sendData[..s.writtenData], 0, i, j);
    }
  }

  /** No chunk straddles a 1024-byte block, so the priority of its offset is that of all its bytes. */
  lemma BlockAlignment(stream: seq<Byte>, ranking: Ranking, xs: seq<Action>, w: World, c: RangeBuf, at: nat)
    requires Reaches(stream, ranking, xs, w) && c in w.created && c.off <= at < c.off + |c.data|
    ensures |c.data| <= S.SEND_BUFFER_SIZE && at / BLOCK == c.off / BLOCK
    ensures ranking.Has(at) <==> ranking.Has(c.off)
    ensures ranking.Has(at) ==> ranking.Priority(at) == ranking.Priority(c.off)
  {
    ReachesInv(stream, ranking, xs, w);
    hide Inv, IsRun;
    ChunkInBlock(w, c);
    BetweenBlocks(c.off, at, c.off + |c.data| - 1);
  }

  lemma ChunkInBlock(w: World, c: RangeBuf)
    requires Inv(w) && c in w.created
    ensures S.InBlock(c)
  {
    hide S.InBlock;
  }

  lemma BetweenBlocks(a: nat, b: nat, c: nat)
    requires a <= b <= c && a / BLOCK == c / BLOCK
    ensures b / BLOCK == a / BLOCK
  {
  }

  // ------------------------------------------------------------ solicitation

  /** Every transmission is asked about exactly once, in order: what was asked plus what is pending is
      what was sent. At most eight are pending, and none once the round has stopped. */
  lemma Solicitation(stream: seq<Byte>, ranking: Ranking, xs: seq<Action>, w: World)
    requires Reaches(stream, ranking, xs, w)
    ensures var s := w.a.snd;
      && s.ackPoint <= |s.sentPkt| && DataOffsets(w.toB) == s.sentPkt
      && Asked(w.toB) + s.sentPkt[s.ackPoint..] == DataOffsets(w.toB)
      && s.sentCount == |s.sentPkt| - s.ackPoint <= ELICT_FLAG
      && (s.IsStopped() ==> Asked(w.toB) == DataOffsets(w.toB))
  {
    hide IsRun, TxInv, StreamInv, ToAInv, ToBInv, ReceiverInv, SafeInv, DataOffsets, Asked;
    ReachesInv(stream, ranking, xs, w);
    assert w.a.snd.sentPkt == w.a.snd.sentPkt[..w.a.snd.ackPoint] + w.a.snd.sentPkt[w.a.snd.ackPoint..];
  }

  /** Every solicitation carries exactly the offsets sent before it and not asked about before it, so the
      hard-coded length of 64 never announces leftover bytes of the caller's buffer. */
  lemma SolicitationBody(stream: seq<Byte>, ranking: Ranking, xs: seq<Action>, w: World, k: nat)
    requires Reaches(stream, ranking, xs, w) && k < |w.toB| && w.toB[k].hdr.ty == ElictAck
    ensures AsksPending(w.toB[..k], w.toB[k])
    ensures w.toB[k].hdr.pktLength == |w.toB[k].body| <= 64
  {
    hide IsRun, Inv, AskedExactly, AsksPending;
    ReachesInv(stream, ranking, xs, w);
    LogFacts(w, w.toB[k]);
    AskedAt(w.toB, k);
  }

  lemma {:induction false} AskedAt(log: seq<Datagram>, k: nat)
    requires AskedExactly(log) && k < |log| && log[k].hdr.ty == ElictAck
    ensures AsksPending(log[..k], log[k])
  {
    if k == |log| - 1 {
    } else {
      AskedAt(log[..|log| - 1], k);
      assert log[..|log| - 1][..k] == log[..k];
    }
  }

  lemma LogFacts(w: World, d: Datagram)
    requires Inv(w) && d in w.toB
    ensures AskedExactly(w.toB) && Honest(d, w.created, w.a.snd.sentPkt, w.a.snd.ranking)
  {
    hide Honest, AskedExactly;
  }

  /** Every data packet carries one whole chunk, its length and the priority of its block. */
  lemma DataPackets(stream: seq<Byte>, ranking: Ranking, xs: seq<Action>, w: World, d: Datagram)
    requires Reaches(stream, ranking, xs, w) && d in w.toB && d.hdr.ty == Application
    ensures From(d.body, d.hdr.offset) in w.created && d.hdr.pktLength == |d.body|
    ensures ranking.Has(d.hdr.offset) && d.hdr.priority == ranking.Priority(d.hdr.offset)
  {
    hide IsRun, Inv;
    ReachesInv(stream, ranking, xs, w);
    LogFacts(w, d);
    SentRanked(w, d);
  }

  lemma SentRanked(w: World, d: Datagram)
    requires Inv(w) && d in w.toB && d.hdr.ty == Application
    ensures w.a.snd.ranking.Has(d.hdr.offset)
  {
    hide StreamInv, Counted, SafeInv, ToAInv, ToBInv, ReceiverInv, Asked, Left, AskedExactly;
    DataOffset(w.toB, d);
  }

  lemma {:induction false} DataOffset(log: seq<Datagram>, d: Datagram)
    requires d in log && d.hdr.ty == Application
    ensures d.hdr.offset in DataOffsets(log)
  {
    var k := |log| - 1;
    if d == log[k] {
    } else {
      assert d in log[..k];
      DataOffset(log[..k], d);
    }
  }

  // ------------------------------------------------------------ no panic

  /** A step panics exactly when it would transmit a chunk whose block has no norm. */
  lemma PanicIff(stream: seq<Byte>, ranking: Ranking, xs: seq<Action>, w: World, x: Action)
    requires Reaches(stream, ranking, xs, w) && Enabled(w, x)
    ensures !Defined(w, x) <==> Transmits(w, x) && !ranking.Has(w.a.snd.sendBuffer.data[w.a.snd.sendBuffer.pos].off)
    ensures Covers(ranking, |stream|) ==> Defined(w, x)
  {
    ReachesInv(stream, ranking, xs, w);
    hide Inv, Enabled, Defined;
    NoPanic(w, x);
    if Covers(ranking, |stream|) {
      CoveredNoPanic(w, x);
    }
  }

  // ------------------------------------------------------------ rounds

  lemma ReachesRound(stream: seq<Byte>, ranking: Ranking, xs: seq<Action>, w: World)
    requires Reaches(stream, ranking, xs, w) && Orderly(Init(stream, ranking), xs, w)
    ensures Inv(w) && RoundInv(w)
  {
    hide Inv, RoundInv;
    InitInv(stream, ranking);
    InitRound(stream, ranking);
    RoundRun(Init(stream, ranking), xs, w);
  }

  /** Accounting in every run, however `send_all` is used: the transmissions since the last `send_all` are
      consecutive chunks of the queue, in order and each once, and exceed the window by at most one
      chunk; the two length fields agree, never underflow and cover what is still to be sent. */
  lemma SendWindow(stream: seq<Byte>, ranking: Ranking, xs: seq<Action>, w: World) returns (start: nat)
    requires Reaches(stream, ranking, xs, w)
    ensures var s := w.a.snd; var b, m := s.sendBuffer, |s.sentPkt| - w.roundStart;
      && 0 <= m && start + m <= |b.data|
      && s.sentPkt[w.roundStart..] == S.Offsets(b.data[start..start + m])
      && S.Ascending(b.data)
      && S.TotalBytes(b.data[start..start + m]) <= b.maxData + S.SEND_BUFFER_SIZE
      && b.len == b.usedLength >= 0
      && (!s.stopFlag ==> b.len >= S.TotalBytes(b.data[Front(b)..]))
  {
    hide IsRun, Inv, StreamInv, TxInv, SafeInv, S.TotalBytes, S.Offsets, S.Ascending;
    ReachesAccounts(stream, ranking, xs, w);
    InvParts(w);
    QueueAscends(w.a.snd, w.created);
    start :| Span(w.a.snd, w.roundStart, start);
  }

  lemma ReachesAccounts(stream: seq<Byte>, ranking: Ranking, xs: seq<Action>, w: World)
    requires Reaches(stream, ranking, xs, w)
    ensures Inv(w) && AccountsInv(w)
  {
    hide Inv, AccountsInv;
    InitInv(stream, ranking);
    InitRound(stream, ranking);
    AccountsRun(Init(stream, ranking), xs, w);
  }

  /** In orderly runs they are the first chunks of the queue, and the length fields are exactly the bytes
      still to go. */
  lemma SendWindowOrderly(stream: seq<Byte>, ranking: Ranking, xs: seq<Action>, w: World)
    requires Reaches(stream, ranking, xs, w) && Orderly(Init(stream, ranking), xs, w)
    ensures var s := w.a.snd; var b, m := s.sendBuffer, |s.sentPkt| - w.roundStart;
      && 0 <= m <= |b.data|
      && s.sentPkt[w.roundStart..] == S.Offsets(b.data[..m])
      && (b.data != [] ==> b.sent == S.TotalBytes(b.data[..m]) <= b.maxData + S.SEND_BUFFER_SIZE)
      && (!s.stopFlag && b.data != [] ==> b.pos == m && b.len == b.usedLength == S.TotalBytes(b.data[m..]))
  {
    ReachesRound(stream, ranking, xs, w);
    hide TxInv, ToAInv, LogInv, Counted, ReceiverInv, SafeInv, ToBInv, Tiles, S.TotalBytes;
  }

  /** After any write the queue holds at most the window, or what had to be retained, and exactly the
      window while there is stream left. */
  lemma WriteFillsWindow(stream: seq<Byte>, ranking: Ranking, xs: seq<Action>, w: World)
    requires Reaches(stream, ranking, xs, w)
    requires |stream| > w.a.snd.writtenData || w.a.snd.sendBuffer.data != []
    ensures w.a.snd.CanSendAll()
    ensures var s := w.a.snd; var t, window := s.SendAll().0, s.Window().1;
      var retained, total := S.TotalBytes(S.KeptByOffset(s.sendBuffer.data, s.sendBuffer.offsetRecv)), S.TotalBytes(t.sendBuffer.data);
      && t.sendBuffer.maxData == window
      && total == retained + (t.writtenData - s.writtenData) <= (if retained > window then retained else window)
      && (retained < window && t.writtenData < |stream| ==> total == window)
  {
    hide Inv, IsRun, StreamInv, Counted, S.KeptByOffset, SenderState.SendAll, SenderState.Window, SenderState.CanSendAll, S.TotalBytes;
    ReachesInv(stream, ranking, xs, w);
    InvParts(w);
    WriteBound(w.a.snd, w.created);
  }

  lemma WriteBound(s: SenderState, created: seq<RangeBuf>)
    requires StreamInv(s, created) && Counted(s)
    requires |s.sendData| > s.writtenData || s.sendBuffer.data != []
    ensures s.CanSendAll()
    ensures var t, window := s.SendAll().0, s.Window().1;
      var retained, total := S.TotalBytes(S.KeptByOffset(s.sendBuffer.data, s.sendBuffer.offsetRecv)), S.TotalBytes(t.sendBuffer.data);
      && t.sendBuffer.maxData == window
      && total == retained + (t.writtenData - s.writtenData) <= (if retained > window then retained else window)
      && (retained < window && t.writtenData < |s.sendData| ==> total == window)
  {
    hide StreamInv, Counted, S.Valid, S.SendState.Write, S.KeptByOffset, SenderState.Window, S.TotalBytes;
    CanAlwaysWrite(s, created);
    StreamOffsets(s, created);
    S.WriteFills(s.sendBuffer, s.sendData[s.writtenData..], s.Window().1);
    S.WriteFields(s.sendBuffer, s.sendData[s.writtenData..], s.Window().1, S.Lead(s.totalOffset));
  }

  lemma StreamOffsets(s: SenderState, created: seq<RangeBuf>)
    requires StreamInv(s, created)
    ensures S.Valid(s.sendBuffer) && s.sendBuffer.off == s.totalOffset == s.writtenData <= |s.sendData| < U64
  {
  }

  /** A round started on an established connection, in any state and after any history, with a chunk at
      the send position: it has stopped after exactly `m + ceil((n + m) / 8)` calls, `n` being the
      transmissions not yet asked about and `m` the least number of chunks from the position on that
      fill the window, or all of them; and those are what it transmits. */
  lemma RestartCalls(stream: seq<Byte>, ranking: Ranking, xs: seq<Action>, w: World, ys: seq<Action>, v: World)
    requires Reaches(stream, ranking, xs, w)
    requires !w.a.rttZero && Defined(w, SendAll) && Sendable(Step(w, SendAll).a.snd.sendBuffer)
    requires IsRun(Step(w, SendAll), ys, v) && forall i :: 0 <= i < |ys| ==> !ys[i].SendAll?
    ensures var s, b := w.a.snd, Step(w, SendAll).a.snd.sendBuffer;
      var rest := b.data[b.pos..];
      var m := S.Quota(rest, b.maxData, 0, 0);
      && b.pos == s.sendBuffer.pos && 1 <= m <= |rest|
      && (v.a.snd.IsStopped() <==> Sends(ys) >= m + (s.sentCount + m + 7) / 8)
      && |v.toB| == |w.toB| + Sends(ys)
      && (v.a.snd.IsStopped() ==> v.a.snd.sentPkt == s.sentPkt + S.Offsets(rest[..m]))
      && (m < |rest| ==> S.Gone(rest, m) >= b.maxData)
      && (forall k :: 0 < k < m ==> S.Gone(rest, k) < b.maxData)
  {
    hide Inv, IsRun, S.Quota, S.Gone, S.Offsets, SenderState.SendAll, Cut;
    ReachesInv(stream, ranking, xs, w);
    RoundFromStart(w, ys, v);
  }

  /** So a finished round has sent a queued chunk if and only if it lies in that part of the queue: one
      that is started with the position past the front leaves the chunks before it out. */
  lemma RestartSkips(stream: seq<Byte>, ranking: Ranking, xs: seq<Action>, w: World, ys: seq<Action>, v: World, i: nat)
    requires Reaches(stream, ranking, xs, w)
    requires !w.a.rttZero && Defined(w, SendAll) && Sendable(Step(w, SendAll).a.snd.sendBuffer)
    requires IsRun(Step(w, SendAll), ys, v) && forall i :: 0 <= i < |ys| ==> !ys[i].SendAll?
    requires v.a.snd.IsStopped() && i < |Step(w, SendAll).a.snd.sendBuffer.data|
    ensures var b, before := Step(w, SendAll).a.snd.sendBuffer, |w.a.snd.sentPkt|;
      && before <= |v.a.snd.sentPkt|
      && (b.data[i].off in v.a.snd.sentPkt[before..] <==> b.pos <= i < b.pos + S.Quota(b.data[b.pos..], b.maxData, 0, 0))
  {
    hide Inv, IsRun, S.Quota, S.Gone, S.Offsets, S.Ascending, SenderState.SendAll, Cut, StreamInv, TxInv, SafeInv, Counted;
    ReachesInv(stream, ranking, xs, w);
    RestartCalls(stream, ranking, xs, w, ys, v);
    StepInv(w, SendAll);
    var u := Step(w, SendAll);
    InvParts(u);
    QueueAscends(u.a.snd, u.created);
    var b := u.a.snd.sendBuffer;
    var m := S.Quota(b.data[b.pos..], b.maxData, 0, 0);
    assert v.a.snd.sentPkt[|w.a.snd.sentPkt|..] == S.Offsets(b.data[b.pos..][..m]);
    InSegment(b.data, b.pos, m, i);
  }

  lemma InSegment(cs: seq<RangeBuf>, from: nat, m: nat, i: nat)
    requires S.Ascending(cs) && from + m <= |cs| && i < |cs|
    ensures cs[i].off in S.Offsets(cs[from..][..m]) <==> from <= i < from + m
  {
    var part := cs[from..][..m];
    if cs[i].off in S.Offsets(part) {
      var j :| 0 <= j < m && S.Offsets(part)[j] == cs[i].off;
      assert part[j] == cs[from + j];
    }
    if from <= i < from + m {
      assert S.Offsets(part)[i - from] == cs[i].off;
    }
  }

  /** Started with the position beyond the queue, a data call sends nothing and answers `Done`. */
  lemma BeyondQueue(stream: seq<Byte>, ranking: Ranking, xs: seq<Action>, w: World, out: seq<Byte>)
    requires Reaches(stream, ranking, xs, w) && Enabled(w, SendA(out)) && Defined(w, SendA(out))
    requires w.a.WritePktType().1 == Ok(Application) && !Sendable(w.a.snd.sendBuffer)
    ensures Step(w, SendA(out)).toB == w.toB && Step(w, SendA(out)).a.snd.sentPkt == w.a.snd.sentPkt
    ensures w.a.SendData(out, []).result == Err(Done)
  {
    hide Inv, IsRun, Step, Defined, StreamInv, TxInv, SafeInv, Counted, ConnState.WritePktType, SenderState.SendApplication,
      ConnState.SendData, SenderState.CanSend;
    ReachesInv(stream, ranking, xs, w);
    InvParts(w);
    SendASender(w, out);
    var s, tail := w.a.snd, out[HEADER_LENGTH..];
    NothingSent(s, w.created, w.b.rcv.recvDic, tail);
    DataCall(w, out);
  }

  lemma DataCall(w: World, out: seq<Byte>)
    requires Enabled(w, SendA(out)) && Defined(w, SendA(out)) && w.a.WritePktType().1 == Ok(Application)
    requires w.a.snd.SendApplication(out[HEADER_LENGTH..]).result == Err(Done)
    ensures w.a.SendData(out, []).result == Err(Done) && Step(w, SendA(out)).toB == w.toB
  {
    hide ConnState.WritePktType, SenderState.SendApplication, ConnState.SendData, SenderState.CanSend;
    SendDataByType(w.a, out, []);
  }

  /** A round started once the last one has stopped, whatever happened before, or from an empty queue
      in an orderly run, takes exactly `m + ceil(m / 8)` calls and sends the first `m` chunks. */
  lemma RoundCalls(stream: seq<Byte>, ranking: Ranking, xs: seq<Action>, w: World, ys: seq<Action>, v: World)
    requires Reaches(stream, ranking, xs, w)
    requires w.a.snd.IsStopped() || (w.a.snd.sendBuffer.data == [] && Orderly(Init(stream, ranking), xs, w))
    requires !w.a.rttZero && Defined(w, SendAll) && Step(w, SendAll).a.snd.sendBuffer.data != []
    requires IsRun(Step(w, SendAll), ys, v) && forall i :: 0 <= i < |ys| ==> !ys[i].SendAll?
    ensures var b := Step(w, SendAll).a.snd.sendBuffer;
      var m := S.Quota(b.data, b.maxData, 0, 0);
      && 1 <= m <= |b.data|
      && (v.a.snd.IsStopped() <==> Sends(ys) >= m + (m + 7) / 8)
      && |v.toB| == |w.toB| + Sends(ys)
      && (v.a.snd.IsStopped() ==> v.a.snd.sentPkt == w.a.snd.sentPkt + S.Offsets(b.data[..m]))
      && (m < |b.data| ==> S.Gone(b.data, m) >= b.maxData)
      && (forall k :: 0 < k < m ==> S.Gone(b.data, k) < b.maxData)
  {
    hide Inv, AccountsInv, RoundInv, IsRun, S.Quota, S.Gone, S.Offsets, Cut, SenderState.SendAll, SenderState.CanSendAll;
    ReachesAccounts(stream, ranking, xs, w);
    if w.a.snd.IsStopped() {
      StoppedStart(w);
    } else {
      ReachesRound(stream, ranking, xs, w);
      EmptyStart(w);
    }
    SendAllFrame(w.a.snd);
    var b := Step(w, SendAll).a.snd.sendBuffer;
    assert b.data[0..] == b.data;
    RestartCalls(stream, ranking, xs, w, ys, v);
  }

  lemma StoppedStart(w: World)
    requires Inv(w) && AccountsInv(w) && w.a.snd.IsStopped()
    ensures w.a.snd.sendBuffer.pos == 0 && w.a.snd.sentCount == 0
  {
    hide StreamInv, TxInv, SafeInv, LogInv, ToAInv, ToBInv, ReceiverInv, Span;
  }

  lemma EmptyStart(w: World)
    requires Inv(w) && RoundInv(w) && w.a.snd.sendBuffer.data == []
    ensures w.a.snd.sendBuffer.pos == 0 && w.a.snd.sentCount == 0
  {
    hide Inv, Progress;
    InvParts(w);
    IdleStart(w.a.snd, w.roundStart);
  }

  // ------------------------------------------------------------ the receiver

  /** Reading works in exactly those runs in which no data packet was delivered late. */
  lemma ReadingIff(stream: seq<Byte>, ranking: Ranking, xs: seq<Action>, w: World)
    requires Reaches(stream, ranking, xs, w)
    ensures R.CursorBelow(w.b.rcv.recBuffer) <==> NeverLate(Init(stream, ranking), xs, w)
  {
    hide Inv;
    InitInv(stream, ranking);
    InitRound(stream, ranking);
    ReadableIff(Init(stream, ranking), xs, w);
  }

  /** In a run without late packets a read of a filled buffer shows stream bytes only, the last chunk in
      reach from its first byte on. */
  lemma ReadShows(stream: seq<Byte>, ranking: Ranking, xs: seq<Action>, w: World, out: seq<Byte>) returns (r: R.ReadResult, k: nat, at: nat)
    requires Reaches(stream, ranking, xs, w) && NeverLate(Init(stream, ranking), xs, w)
    requires w.b.rcv.recBuffer.data.Keys != {} && out != []
    ensures w.b.rcv.recBuffer.Emit(out) == (r.st, Ok(r))
    ensures |r.out| == |out| && forall i :: 0 <= i < |out| ==> r.out[i] == out[i] || r.out[i] in stream
    ensures var st := w.b.rcv.recBuffer;
      if st.data[First(st.data.Keys)].Off() - st.lastMaxoff < |out| then ShowsStream(st, stream, out, r, k, at)
      else r.out == out
  {
    hide Inv, IsRun, NeverLate, R.RecvState.Emit, ShowsStream;
    ReachesInv(stream, ranking, xs, w);
    ReadingIff(stream, ranking, xs, w);
    r, k, at := ReadsStream(w, out);
  }
}
