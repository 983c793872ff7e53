/** Runs from the start in which a promise fails: budgets overspent, chunks dropped after too many
    transmissions, a panic, a stalled receiver, a skipped chunk. */
module Witnesses {
  import opened Bytes
  import opened Packet
  import opened Priority
  import opened RangeBuffer
  import opened Connection
  import opened Protocol
  import opened Safety
  import opened Rounds
  import opened Budget
  import opened Reading
  import opened Theorems
  import R = RecvBuffer
  import S = SendBuffer

  /** An output buffer with room for one packet. */
  function Room(): (out: seq<Byte>)
    ensures |out| == HEADER_LENGTH + S.SEND_BUFFER_SIZE
  {
    seq(HEADER_LENGTH + S.SEND_BUFFER_SIZE, _ => 0)
  }

  // ------------------------------------------------------------ building runs

  lemma {:induction false} RunAppend(w: World, xs: seq<Action>, v: World, ys: seq<Action>, u: World)
    requires IsRun(w, xs, v) && IsRun(v, ys, u) && Orderly(w, xs, v) && Orderly(v, ys, u)
    ensures IsRun(w, xs + ys, u) && Orderly(w, xs + ys, u)
    decreases xs
  {
    hide Step, Enabled, Defined;
    if xs == [] {
      assert xs + ys == ys;
    } else {
      RunAppend(Step(w, xs[0]), xs[1..], v, ys, u);
      assert (xs + ys)[1..] == xs[1..] + ys;
    }
  }

  /** One more step of an orderly run. */
  lemma Then(w0: World, xs: seq<Action>, w: World, x: Action) returns (ys: seq<Action>, v: World)
    requires IsRun(w0, xs, w) && Orderly(w0, xs, w) && Enabled(w, x) && Defined(w, x)
    requires x == SendAll ==> Idle(w.a.snd)
    ensures v == Step(w, x) && IsRun(w0, ys, v) && Orderly(w0, ys, v)
  {
    hide Step, Enabled, Defined, Idle;
    v := Step(w, x);
    assert [x][1..] == [] && [x][0] == x;
    assert IsRun(v, [], v) && Orderly(v, [], v);
    assert IsRun(w, [x], v) && Orderly(w, [x], v);
    RunAppend(w0, xs, w, [x], v);
    ys := xs + [x];
  }

  // ------------------------------------------------------------ the handshake

  /** The receiver has seen nothing but the handshake. */
  ghost predicate Quiet(w: World) {
    w.b.handshakeConfirmed && w.b.rcv == NOTHING_RECEIVED
  }

  /** The sender is established and has sent nothing yet. */
  ghost predicate Fresh(w: World, stream: seq<Byte>, ranking: Ranking) {
    Inv(w) && !w.a.rttZero && Quiet(w) && w.a.snd == NewSender(stream, ranking) && w.created == []
  }

  lemma Greet(stream: seq<Byte>, ranking: Ranking) returns (w: World)
    requires |stream| < U64
    ensures Enabled(Init(stream, ranking), SendA(Room())) && Defined(Init(stream, ranking), SendA(Room()))
    ensures w == Step(Init(stream, ranking), SendA(Room()))
    ensures w.toB == [HELLO] && w.toA == [] && w.b == Init(stream, ranking).b && w.created == []
    ensures w.a == Init(stream, ranking).a.(handshakeCompleted := true)
  {
    var v := Init(stream, ranking);
    SendDataByType(v.a, Room(), []);
    w := Step(v, SendA(Room()));
  }

  lemma Greeted(v: World) returns (w: World)
    requires v.toB == [HELLO] && !v.b.isServer
    ensures Enabled(v, DeliverB(0)) && Defined(v, DeliverB(0)) && w == Step(v, DeliverB(0))
    ensures w == v.(b := w.b) && w.b == v.b.(handshakeConfirmed := false, feedBack := true, recvCount := v.b.recvCount + 1)
  {
    ReceiveWire(v.b, HELLO);
    w := Step(v, DeliverB(0));
  }

  lemma Answer(v: World) returns (w: World)
    requires !v.b.isServer && !v.b.handshakeConfirmed && v.b.rcv == NOTHING_RECEIVED && v.b.snd == NewSender([], NO_RANKING) && v.toA == []
    ensures Enabled(v, SendB(Room(), [])) && Defined(v, SendB(Room(), [])) && w == Step(v, SendB(Room(), []))
    ensures w == v.(b := v.b.(handshakeConfirmed := true, feedBack := false), toA := [HELLO])
  {
    assert v.b.WritePktType() == (v.b.(handshakeConfirmed := true), Ok(Handshake));
    w := Step(v, SendB(Room(), []));
  }

  lemma Answered(v: World) returns (w: World)
    requires v.toA == [HELLO] && v.a.isServer
    ensures Enabled(v, DeliverA(0)) && Defined(v, DeliverA(0)) && w == Step(v, DeliverA(0))
    ensures !w.a.rttZero && w.a.snd == v.a.snd && w.created == v.created && w.b == v.b
  {
    ReceiveWire(v.a, HELLO);
    w := Step(v, DeliverA(0));
  }

  lemma Established(stream: seq<Byte>, ranking: Ranking) returns (xs: seq<Action>, w: World)
    requires |stream| < U64
    ensures Reaches(stream, ranking, xs, w) && Orderly(Init(stream, ranking), xs, w) && Fresh(w, stream, ranking)
  {
    hide Step, Inv, Init, Enabled, Defined;
    var v := Init(stream, ranking);
    StartOf(stream, ranking);
    var w1 := Greet(stream, ranking);
    assert IsRun(v, [], v) && Orderly(v, [], v);
    xs, w := Then(v, [], v, SendA(Room()));
    var w2 := Greeted(w1);
    xs, w := Then(v, xs, w1, DeliverB(0));
    var w3 := Answer(w2);
    xs, w := Then(v, xs, w2, SendB(Room(), []));
    var w4 := Answered(w3);
    xs, w := Then(v, xs, w3, DeliverA(0));
    ReachesInv(stream, ranking, xs, w);
  }

  lemma StartOf(stream: seq<Byte>, ranking: Ranking)
    ensures var v := Init(stream, ranking);
      && v.a.isServer && v.a.snd == NewSender(stream, ranking)
      && !v.b.isServer && v.b.snd == NewSender([], NO_RANKING) && v.b.rcv == NOTHING_RECEIVED
  {
  }

  // ------------------------------------------------------------ starting rounds

  /** The flags a write leaves are all "keep". */
  lemma WriteUnflags(s: SenderState, created: seq<RangeBuf>)
    requires StreamInv(s, created) && s.CanSendAll() && (|s.sendData| > s.writtenData || s.sendBuffer.data != [])
    ensures var t := s.SendAll().0;
      && t.sendBuffer.data == S.KeptByOffset(s.sendBuffer.data, s.sendBuffer.offsetRecv) + Protocol.Cut(s)
      && (forall o :: o in t.sendBuffer.offsetRecv ==> t.sendBuffer.offsetRecv[o])
      && (forall c :: c in t.sendBuffer.data ==> c.off in t.sendBuffer.offsetRecv)
      && t.writtenData == s.writtenData + s.sendBuffer.Accepted(s.sendData[s.writtenData..], s.Window().1)
      && t.sendBuffer.maxData == s.Window().1
  {
    hide S.SendState.Write, S.SendState.Added, S.SendState.Accepted, S.KeptByOffset, SenderState.Window, Tiles, Among;
    S.WriteKeepsValid(s.sendBuffer, s.sendData[s.writtenData..], s.Window().1, S.Lead(s.totalOffset));
    S.WriteFields(s.sendBuffer, s.sendData[s.writtenData..], s.Window().1, S.Lead(s.totalOffset));
    var t := s.SendAll().0;
    forall c | c in t.sendBuffer.data ensures c.off in t.sendBuffer.offsetRecv {
      S.OffsetsMember(t.sendBuffer.data, c.off);
    }
  }

  lemma NothingCut(s: SenderState)
    requires s.CanSendAll() && s.writtenData == |s.sendData|
    ensures Protocol.Cut(s) == [] && s.SendAll().0.writtenData == s.writtenData
  {
  }

  lemma {:induction false} KeptAll(cs: seq<RangeBuf>, m: map<nat, bool>)
    requires forall c :: c in cs ==> c.off in m && m[c.off]
    ensures S.KeptByOffset(cs, m) == cs
  {
    if cs == [] {
    } else {
      KeptAll(cs[1..], m);
    }
  }

  lemma {:induction false} KeptNone(cs: seq<RangeBuf>, m: map<nat, bool>)
    requires forall c :: c in cs ==> c.off in m && !m[c.off]
    ensures S.KeptByOffset(cs, m) == []
  {
    if cs == [] {
    } else {
      KeptNone(cs[1..], m);
    }
  }

  /** A short stream is cut and written whole by the first round. */
  lemma FirstCut(s: SenderState, stream: seq<Byte>, ranking: Ranking)
    requires s == NewSender(stream, ranking) && 0 < |stream| <= 9600
    ensures s.CanSendAll() && Protocol.Cut(s) == S.Chunks(stream, 0)
    ensures s.Window().1 >= 9600 && s.sendBuffer.Accepted(s.sendData[s.writtenData..], s.Window().1) == |stream|
  {
    assert s.sendData[0..] == stream && stream[..|stream|] == stream;
    assert s.Window().1 >= 9600;
    assert S.TotalBytes([]) == 0;
  }

  /** The first round is open: the whole stream is queued. */
  ghost predicate FirstRound(w: World, stream: seq<Byte>, ranking: Ranking) {
    var s := w.a.snd;
    && Inv(w) && !w.a.rttZero && Quiet(w)
    && 0 < |stream| <= 9600 && s.sendData == stream && s.ranking == ranking && s.writtenData == |stream|
    && s.sendBuffer.data == S.Chunks(stream, 0) && s.sendBuffer.pos == 0 && s.sendBuffer.sent == 0 && s.sendBuffer.maxData >= 9600
    && (forall c :: c in s.sendBuffer.data ==> c.off in s.sendBuffer.offsetRecv && s.sendBuffer.offsetRecv[c.off])
    && !s.stopFlag && !s.stopAck && s.sentCount == 0 && s.sentPkt == []
  }

  lemma Open(w: World, stream: seq<Byte>, ranking: Ranking)
    requires Fresh(w, stream, ranking) && 0 < |stream| <= 9600
    ensures Idle(w.a.snd) && Defined(w, SendAll) && FirstRound(Step(w, SendAll), stream, ranking)
  {
    hide Inv, SenderState.SendAll, SenderState.CanSendAll, SenderState.Window, Protocol.Cut, S.KeptByOffset, S.Chunks,
      StreamInv, Counted, TxInv, SafeInv;
    InvParts(w);
    var s := w.a.snd;
    FirstCut(s, stream, ranking);
    var u := Step(w, SendAll);
    StepInv(w, SendAll);
    KeepsInput(w, SendAll);
    WriteUnflags(s, w.created);
    KeptNone([], s.sendBuffer.offsetRecv);
    SendAllFrame(s);
    assert u.a.snd.sendBuffer.data == S.Chunks(stream, 0);
    ChunksExist(stream);
  }

  lemma ChunksExist(stream: seq<Byte>)
    requires 0 < |stream| < U64
    ensures S.Chunks(stream, 0) != [] && S.Chunks(stream, 0)[0] == From(stream[..Min(|stream|, 1024)], 0)
    ensures |stream| <= 1024 ==> S.Chunks(stream, 0) == [From(stream, 0)]
    ensures |stream| > 1024 ==> |S.Chunks(stream, 0)| >= 2 && S.Chunks(stream, 0)[1].off == 1024
  {
    var n := Min(|stream|, 1024);
    assert stream[..|stream|] == stream;
    assert n == |stream| ==> S.Chunks(stream[n..], n) == [];
  }

  lemma RoundOpened(stream: seq<Byte>, ranking: Ranking) returns (xs: seq<Action>, w: World)
    requires 0 < |stream| <= 9600
    ensures Reaches(stream, ranking, xs, w) && Orderly(Init(stream, ranking), xs, w) && FirstRound(w, stream, ranking)
  {
    hide Step, Init, Fresh, FirstRound, Idle;
    xs, w := Established(stream, ranking);
    Open(w, stream, ranking);
    xs, w := Then(Init(stream, ranking), xs, w, SendAll);
  }

  // ------------------------------------------------------------ a panic, and a skipped chunk

  /** The first of several chunks has just gone out. */
  ghost predicate OneSent(w: World, stream: seq<Byte>, ranking: Ranking) {
    var s := w.a.snd;
    && Inv(w) && !w.a.rttZero && s.ranking == ranking && s.sendData == stream && s.writtenData == |stream|
    && s.sendBuffer.data == S.Chunks(stream, 0) && |s.sendBuffer.data| >= 2 && s.sendBuffer.pos == 1
    && s.sendBuffer.data[0].off == 0 && s.sendBuffer.data[1].off == 1024
    && (forall c :: c in s.sendBuffer.data ==> c.off in s.sendBuffer.offsetRecv && s.sendBuffer.offsetRecv[c.off])
    && !s.stopFlag && s.sentCount == 1 && s.sentPkt == [0]
  }

  /** The first of several chunks does not fill the window. */
  lemma FirstTransmission(s: SenderState, created: seq<RangeBuf>, out: seq<Byte>)
    requires StreamInv(s, created) && s.CanSend() && |out| >= S.SEND_BUFFER_SIZE && !s.stopFlag
    requires s.sendBuffer.pos == 0 && s.sendBuffer.sent == 0 && s.sendBuffer.maxData >= 9600 && |s.sendBuffer.data| >= 2
    ensures var b, t := s.sendBuffer, s.SendApplication(out).state;
      && b.data[0].off < U64 && t.sendBuffer.data == b.data && t.sendBuffer.offsetRecv == b.offsetRecv && t.sendBuffer.pos == 1
      && !t.stopFlag && t.sentCount == s.sentCount + 1 && t.sentPkt == s.sentPkt + [b.data[0].off] && t.writtenData == s.writtenData
  {
    hide StreamInv, SenderState.CanSend, SenderState.SendApplication, SenderState.Charge, S.SendState.Emit;
    TransmitFields(s, created, out);
    NextChunk(s, created);
    S.EmitCopies(s.sendBuffer, out);
  }

  lemma ApplicationNext(w: World)
    requires Inv(w) && !w.a.rttZero && !w.a.snd.stopFlag && w.a.snd.sentCount < ELICT_FLAG
    ensures w.a.WritePktType().1 == Ok(Application)
  {
    InvParts(w);
    hide Inv;
  }

  lemma SendFirst(w: World, stream: seq<Byte>, ranking: Ranking)
    requires FirstRound(w, stream, ranking) && |stream| > 1024 && ranking.Has(0)
    ensures Enabled(w, SendA(Room())) && Defined(w, SendA(Room())) && OneSent(Step(w, SendA(Room())), stream, ranking)
  {
    hide Inv, Step, Defined, ConnState.WritePktType, S.Chunks, StreamInv, TxInv, SafeInv, Counted, SenderState.CanSend, SenderState.SendApplication;
    var x, out := SendA(Room()), Room();
    ChunksExist(stream);
    ApplicationNext(w);
    NoPanic(w, x);
    StepInv(w, x);
    KeepsInput(w, x);
    InvParts(w);
    SendASender(w, out);
    FirstTransmission(w.a.snd, w.created, out[HEADER_LENGTH..]);
  }

  lemma FirstSent(stream: seq<Byte>, ranking: Ranking) returns (xs: seq<Action>, w: World)
    requires 1024 < |stream| <= 9600 && ranking.Has(0)
    ensures Reaches(stream, ranking, xs, w) && Orderly(Init(stream, ranking), xs, w) && OneSent(w, stream, ranking)
  {
    hide Step, Init, FirstRound, OneSent;
    xs, w := RoundOpened(stream, ranking);
    SendFirst(w, stream, ranking);
    xs, w := Then(Init(stream, ranking), xs, w, SendA(Room()));
  }

  /** A stream whose second block has no norm: the second data call of the first round panics. */
  lemma PanicReached(stream: seq<Byte>, ranking: Ranking) returns (xs: seq<Action>, w: World)
    requires 1024 < |stream| <= 9600 && ranking.Has(0) && !ranking.Has(1024)
    ensures Reaches(stream, ranking, xs, w) && Orderly(Init(stream, ranking), xs, w)
    ensures Enabled(w, SendA(Room())) && !Defined(w, SendA(Room()))
  {
    hide IsRun, Orderly, Init, Inv, S.Chunks;
    xs, w := FirstSent(stream, ranking);
    ApplicationNext(w);
    NoPanic(w, SendA(Room()));
  }

  /** What a `send_all` in the middle of a round breaks: the position stays, so the new round starts
      behind the first chunk and leaves it out. */
  lemma MidRoundSkips(stream: seq<Byte>, ranking: Ranking) returns (xs: seq<Action>, w: World)
    requires 1024 < |stream| <= 9600 && ranking.Has(0)
    ensures Reaches(stream, ranking, xs, w) && Orderly(Init(stream, ranking), xs, w) && !Idle(w.a.snd)
    ensures Defined(w, SendAll)
    ensures var b := Step(w, SendAll).a.snd.sendBuffer;
      b.pos == 1 < |b.data| && b.data[0].off == 0 && 0 in b.offsetRecv && b.offsetRecv[0] && b.data == w.a.snd.sendBuffer.data
  {
    hide IsRun, Orderly, Init, Inv, S.Chunks, SenderState.SendAll, SenderState.CanSendAll, Protocol.Cut, S.KeptByOffset,
      StreamInv, Counted, TxInv, SafeInv;
    xs, w := FirstSent(stream, ranking);
    var s := w.a.snd;
    InvParts(w);
    CanAlwaysWrite(s, w.created);
    NothingCut(s);
    WriteUnflags(s, w.created);
    KeptAll(s.sendBuffer.data, s.sendBuffer.offsetRecv);
    SendAllFrame(s);
    var b := Step(w, SendAll).a.snd.sendBuffer;
    assert b.data == s.sendBuffer.data;
    assert b.data[0] in b.data;
  }

  // ------------------------------------------------------------ one chunk, any number of transmissions

  /** The only chunk of a one-byte stream is queued, flagged to keep or not, and was sent `n` times;
      the receiver has stored nothing. */
  ghost predicate Queued(w: World, b: Byte, n: nat, keep: bool) {
    var s := w.a.snd;
    && Inv(w) && !w.a.rttZero && w.b.rcv.recvDic == map[]
    && s.sendData == [b] && s.writtenData == 1 && Covers(s.ranking, 1)
    && s.sendBuffer.data == [From([b], 0)] && s.sendBuffer.pos == 0
    && 0 in s.sendBuffer.offsetRecv && s.sendBuffer.offsetRecv[0] == keep
    && Count(s.sentPkt, 0) == n
  }

  ghost predicate Opened(w: World, b: Byte, n: nat, keep: bool) {
    Queued(w, b, n, keep) && !w.a.snd.stopFlag && !w.a.snd.stopAck && w.a.snd.sentCount == 0
  }

  ghost predicate Waiting(w: World, b: Byte, n: nat, keep: bool) {
    Queued(w, b, n, keep) && w.a.snd.IsStopped()
  }

  lemma FirstOpened(w: World, b: Byte, ranking: Ranking)
    requires FirstRound(w, [b], ranking) && Covers(ranking, 1)
    ensures Opened(w, b, 0, true)
  {
    hide Inv, Covers, S.Chunks;
    ChunksExist([b]);
    assert w.a.snd.sendBuffer.data[0] in w.a.snd.sendBuffer.data;
  }

  /** Starting a round without any report in between queues the same chunk again. */
  lemma Reopen(w: World, b: Byte, n: nat)
    requires Waiting(w, b, n, true)
    ensures Idle(w.a.snd) && Defined(w, SendAll) && Step(w, SendAll).b == w.b && Opened(Step(w, SendAll), b, n, true)
  {
    hide Inv, SenderState.SendAll, SenderState.CanSendAll, Count, Covers, Protocol.Cut, S.KeptByOffset, StreamInv, TxInv, SafeInv;
    var s := w.a.snd;
    InvParts(w);
    CanAlwaysWrite(s, w.created);
    var u := Step(w, SendAll);
    StepInv(w, SendAll);
    KeepsInput(w, SendAll);
    NothingCut(s);
    WriteUnflags(s, w.created);
    KeptAll(s.sendBuffer.data, s.sendBuffer.offsetRecv);
    assert u.a.snd.sendBuffer.data == s.sendBuffer.data;
    assert u.a.snd.sendBuffer.data[0] in u.a.snd.sendBuffer.data;
    SendAllFrame(s);
  }

  /** The two calls of such a round. */
  lemma SendTwice(w: World, b: Byte, n: nat, keep: bool)
    requires Opened(w, b, n, keep)
    ensures var x := SendA(Room());
      && Enabled(w, x) && Defined(w, x)
      && var u := Step(w, x);
         Enabled(u, x) && Defined(u, x) && Step(u, x).b == w.b && Waiting(Step(u, x), b, n + 1, keep)
  {
    hide Inv, Step, Defined, Covers, ConnState.WritePktType, S.SendState.Emit;
    var x := SendA(Room());
    CoveredNoPanic(w, x);
    StepInv(w, x);
    KeepsInput(w, x);
    FirstCall(w, b, n, keep);
    var u := Step(w, x);
    CoveredNoPanic(u, x);
    StepInv(u, x);
    KeepsInput(u, x);
    SecondCall(u);
  }

  lemma FirstCall(w: World, b: Byte, n: nat, keep: bool)
    requires Opened(w, b, n, keep) && Defined(w, SendA(Room()))
    ensures var s, v := w.a.snd, Step(w, SendA(Room())); var t := v.a.snd;
      && t.sendBuffer.data == s.sendBuffer.data && t.sendBuffer.offsetRecv == s.sendBuffer.offsetRecv && t.sendBuffer.pos == 0
      && t.stopFlag && !v.a.rttZero && t.writtenData == s.writtenData && v.b == w.b
      && Count(t.sentPkt, 0) == n + 1
  {
    var out, s := Room(), w.a.snd;
    var tail := out[HEADER_LENGTH..];
    InvParts(w);
    SendASender(w, out);
    assert w.a.WritePktType().1 == Ok(Application);
    hide Inv, Step, Defined, StreamInv, Counted, TxInv, SafeInv, ConnState.WritePktType, S.SendState.Emit, SenderState.CanSend, SenderState.SendApplication;
    TransmitFields(s, w.created, tail);
    S.EmitCopies(s.sendBuffer, tail);
    CountSnoc(s.sentPkt, 0, 0);
  }

  lemma SecondCall(w: World)
    requires Inv(w) && !w.a.rttZero && w.a.snd.stopFlag && Defined(w, SendA(Room()))
    ensures var s, v := w.a.snd, Step(w, SendA(Room())); var t := v.a.snd;
      && t.sendBuffer == s.sendBuffer && t.IsStopped() && t.sentPkt == s.sentPkt
      && !v.a.rttZero && t.writtenData == s.writtenData && v.b == w.b
  {
    var out, s := Room(), w.a.snd;
    InvParts(w);
    SendASender(w, out);
    assert w.a.WritePktType().1 == Ok(ElictAck);
    hide Inv, Step, Defined, StreamInv, TxInv, SafeInv, ConnState.WritePktType;
    ElictBody(s, out[HEADER_LENGTH..]);
  }

  lemma RoundRuns(w0: World, xs: seq<Action>, w: World, b: Byte, n: nat, keep: bool) returns (ys: seq<Action>, v: World)
    requires IsRun(w0, xs, w) && Orderly(w0, xs, w) && Opened(w, b, n, keep)
    ensures IsRun(w0, ys, v) && Orderly(w0, ys, v) && Waiting(v, b, n + 1, keep) && v.b == w.b
  {
    hide Step, Defined, Opened, Waiting;
    SendTwice(w, b, n, keep);
    ys, v := Then(w0, xs, w, SendA(Room()));
    ys, v := Then(w0, ys, v, SendA(Room()));
  }

  /** Started in order but without waiting for reports, rounds send the same chunk any number of
      times, whatever its priority: the budget table alone does not stop a retransmission. */
  lemma {:induction false} UnreportedResends(b: Byte, ranking: Ranking, n: nat) returns (xs: seq<Action>, w: World)
    requires n > 0 && Covers(ranking, 1)
    ensures Reaches([b], ranking, xs, w) && Orderly(Init([b], ranking), xs, w) && Waiting(w, b, n, true) && Quiet(w)
    ensures Count(w.a.snd.sentPkt, 0) == n
  {
    hide Step, Idle, Opened, FirstRound, Covers, Init;
    if n == 1 {
      xs, w := RoundOpened([b], ranking);
      FirstOpened(w, b, ranking);
      QuietStart(w, b, ranking);
    } else {
      xs, w := UnreportedResends(b, ranking, n - 1);
      Reopen(w, b, n - 1);
      xs, w := Then(Init([b], ranking), xs, w, SendAll);
    }
    xs, w := RoundRuns(Init([b], ranking), xs, w, b, n - 1, true);
  }

  lemma QuietStart(w: World, b: Byte, ranking: Ranking)
    requires FirstRound(w, [b], ranking)
    ensures Quiet(w)
  {
  }

  /** So the budget can be exceeded: for any priority there is a run that sends a chunk twice as often. */
  lemma BudgetFails(b: Byte, ranking: Ranking) returns (xs: seq<Action>, w: World)
    requires Covers(ranking, 1)
    ensures Reaches([b], ranking, xs, w) && Orderly(Init([b], ranking), xs, w)
    ensures Count(w.a.snd.sentPkt, 0) == 2 * (Prio(ranking, 0) + 1)
    ensures !NeverOverspends(Init([b], ranking), xs, w)
  {
    hide Init, Covers, Waiting, Orderly, NeverOverspends, IsRun;
    var n := 2 * (Prio(ranking, 0) + 1);
    xs, w := UnreportedResends(b, ranking, n);
    BudgetExact([b], ranking, xs, w);
  }

  // ------------------------------------------------------------ a stale loss report in the middle of a round

  lemma {:induction false} AskedFrom(log: seq<Datagram>, o: Word) returns (i: nat)
    requires o in Asked(log)
    ensures i < |log| && log[i].hdr.ty == ElictAck && |log[i].body| % 8 == 0 && o in DecodeWords(log[i].body)
  {
    var k := |log| - 1;
    if log[k].hdr.ty == ElictAck && |log[k].body| % 8 == 0 && o in DecodeWords(log[k].body) {
      i := k;
    } else {
      i := AskedFrom(log[..k], o);
    }
  }

  lemma {:induction false} DataFrom(log: seq<Datagram>, o: Word) returns (i: nat)
    requires o in DataOffsets(log)
    ensures i < |log| && log[i].hdr.ty == Application && log[i].hdr.offset == o
  {
    var k := |log| - 1;
    if log[k].hdr.ty == Application && log[k].hdr.offset == o {
      i := k;
    } else {
      i := DataFrom(log[..k], o);
    }
  }

  lemma {:induction false} ZeroLoss(offs: seq<Word>)
    requires offs != [] && forall o :: o in offs ==> o == 0
    ensures NOTHING_RECEIVED.CheckLoss(offs) == map[0 := 1]
  {
    var k := |offs| - 1;
    assert offs[k] in offs;
    if k == 0 {
      assert offs[..0] == [];
    } else {
      assert forall o :: o in offs[..k] ==> o in offs;
      ZeroLoss(offs[..k]);
    }
  }

  /** All transmissions of a one-byte stream are of offset 0. */
  lemma OnlyZero(w: World, b: Byte, n: nat, keep: bool, o: nat)
    requires Queued(w, b, n, keep) && o in w.a.snd.sentPkt
    ensures o == 0
  {
    hide StreamInv, Budgets, SafeInv, LogInv, ToAInv, ToBInv, ReceiverInv, Counted;
    BeginsWritten(w.a.snd, w.created, o);
  }

  /** Some solicitation in flight asks about the chunk, and about nothing else. */
  lemma Solicited(w: World, b: Byte, n: nat, keep: bool) returns (i: nat)
    requires Opened(w, b, n, keep) && n > 0
    ensures i < |w.toB| && w.toB[i].hdr.ty == ElictAck && |w.toB[i].body| % 8 == 0
    ensures DecodeWords(w.toB[i].body) != [] && forall o :: o in DecodeWords(w.toB[i].body) ==> o == 0
  {
    hide StreamInv, TxInv, SafeInv, ToAInv, ReceiverInv, Covers, Asked, DataOffsets, AskedExactly, DecodeWords;
    var s := w.a.snd;
    assert s.sentPkt[..s.ackPoint] == s.sentPkt;
    i := AskedFrom(w.toB, 0);
    var d := w.toB[i];
    assert d in w.toB && Honest(d, w.created, s.sentPkt, s.ranking);
    forall o | o in DecodeWords(d.body) ensures o == 0 {
      OnlyZero(w, b, n, keep, o);
    }
  }

  /** The receiver answers that it has nothing. */
  lemma TakeSolicitation(w: World, i: nat) returns (v: World)
    requires Inv(w) && Quiet(w) && i < |w.toB| && w.toB[i].hdr.ty == ElictAck && |w.toB[i].body| % 8 == 0
    requires DecodeWords(w.toB[i].body) != [] && forall o :: o in DecodeWords(w.toB[i].body) ==> o == 0
    ensures Enabled(w, DeliverB(i)) && Defined(w, DeliverB(i)) && v == Step(w, DeliverB(i)) && v == w.(b := v.b)
    ensures Passive(v.b) && v.b.handshakeConfirmed && v.b.recvFlag && v.b.rcv.recvHashmap == map[0 := 1] && v.b.rcv.recvDic == map[]
  {
    hide StreamInv, TxInv, SafeInv, ToAInv, ToBInv, ReceiverInv, LogInv, Counted, ConnState.RecvSlice, ConnState.CanReceive, Wire,
      DecodeWords, ReceiverState.CheckLoss;
    var d := w.toB[i];
    ReceiveWire(w.b, d);
    ZeroLoss(DecodeWords(d.body));
    v := Step(w, DeliverB(i));
  }

  const LOSS := [Pair(0, 1)]

  lemma ReportLoss(w: World) returns (v: World, d: Datagram, ack: Word)
    requires Passive(w.b) && w.b.handshakeConfirmed && w.b.recvFlag && w.b.rcv.recvHashmap == map[0 := 1]
    ensures Enabled(w, SendB(Room(), LOSS)) && Defined(w, SendB(Room(), LOSS)) && v == Step(w, SendB(Room(), LOSS))
    ensures v == w.(b := v.b, toA := w.toA + [d]) && v.b.rcv.recvDic == w.b.rcv.recvDic
    ensures d.hdr.ty == ACK && d.body == AckBody(ack, LOSS)
  {
    hide ConnState.SendData, AckBody;
    assert IsOrdering(LOSS, map[0 := 1]);
    SendDataByType(w.b, Room(), LOSS);
    assert w.b.WritePktType().1 == Ok(ACK);
    ack := w.b.rcv.recBuffer.maxRecvOff % U64;
    LossFits(ack);
    v := Step(w, SendB(Room(), LOSS));
    d := w.b.SendData(Room(), LOSS).result.value;
  }

  lemma LossFits(ack: Word)
    ensures |AckBody(ack, LOSS)| == 24
  {
    AckBodyRoundTrip(ack, LOSS);
  }

  /** A loss report on a chunk whose entry is 0 flags it. */
  lemma FlagSpent(s: SenderState, ack: Word)
    requires s.ranking.Has(0) && 0 in s.sendBuffer.offsetRecv && 0 in s.sentDic && s.sentDic[0] == 0
    ensures s.Ranked(LOSS)
    ensures var t := s.Absorb(ack, LOSS); 0 in t.sendBuffer.offsetRecv && !t.sendBuffer.offsetRecv[0]
  {
    ProcessPairsEffect(s, LOSS);
    assert LOSS[0] in LOSS && s.Drops(LOSS[0]);
    assert FlaggedBy(s, LOSS, 0);
    hide SenderState.ProcessPairs, SenderState.Reports;
  }

  lemma TakeReport(w: World, i: nat, ack: Word) returns (v: World)
    requires Inv(w) && i < |w.toA| && w.toA[i].hdr.ty == ACK && w.toA[i].body == AckBody(ack, LOSS) && w.a.snd.Ranked(LOSS)
    ensures Enabled(w, DeliverA(i)) && Defined(w, DeliverA(i)) && v == Step(w, DeliverA(i))
    ensures v == w.(a := v.a, reported := v.reported) && v.a.snd == w.a.snd.Absorb(ack, LOSS) && v.a.rttZero == w.a.rttZero
  {
    hide ConnState.RecvSlice, ConnState.CanReceive, Wire, AckBody, SenderState.Absorb, StreamInv, TxInv, SafeInv, ToAInv, ToBInv, ReceiverInv, LogInv, Counted;
    var d := w.toA[i];
    assert d == Datagram(d.hdr, AckBody(ack, LOSS));
    ReceiveAck(w.a, d.hdr, ack, LOSS);
    v := Step(w, DeliverA(i));
  }

  /** The budget of the chunk is spent: its entry is 0. */
  lemma SpentEntry(w: World, b: Byte, keep: bool)
    requires Queued(w, b, Prio(w.a.snd.ranking, 0) + 1, keep)
    ensures 0 in w.a.snd.sentDic && w.a.snd.sentDic[0] == 0 && w.a.snd.ranking.Has(0)
  {
    hide Inv, Prio, Count;
    BudgetsOf(w);
    LeftExact(Prio(w.a.snd.ranking, 0), Prio(w.a.snd.ranking, 0) + 1);
  }

  lemma Flagged(w: World, v: World, b: Byte, ack: Word)
    requires Opened(w, b, Prio(w.a.snd.ranking, 0) + 1, true)
    requires Inv(v) && v.b.rcv.recvDic == map[] && v.a.rttZero == w.a.rttZero
    requires w.a.snd.Ranked(LOSS) && v.a.snd == w.a.snd.Absorb(ack, LOSS)
    ensures Opened(v, b, Prio(w.a.snd.ranking, 0) + 1, false)
  {
    hide Inv, Covers, Count, Prio, SenderState.Absorb, SenderState.Ranked;
    SpentEntry(w, b, true);
    FlagSpent(w.a.snd, ack);
    AbsorbFrame(w.a.snd, ack, LOSS);
  }

  /** In an open round on a chunk whose budget is spent, a loss report flags it before it goes out. */
  lemma FlagMidRound(w0: World, xs: seq<Action>, w: World, b: Byte) returns (ys: seq<Action>, v: World)
    requires IsRun(w0, xs, w) && Orderly(w0, xs, w) && Quiet(w) && Opened(w, b, Prio(w.a.snd.ranking, 0) + 1, true)
    ensures IsRun(w0, ys, v) && Orderly(w0, ys, v)
    ensures v.a.snd.ranking == w.a.snd.ranking && Opened(v, b, Prio(w.a.snd.ranking, 0) + 1, false)
  {
    hide IsRun, Orderly, Step, Enabled, Defined, Inv, Prio, Covers, Count, SenderState.Ranked, SenderState.Absorb, Passive;
    var n := Prio(w.a.snd.ranking, 0) + 1;
    var i := Solicited(w, b, n, true);
    var w1 := TakeSolicitation(w, i);
    ys, v := Then(w0, xs, w, DeliverB(i));
    StepInv(w, DeliverB(i));
    var w2, d, ack := ReportLoss(w1);
    ys, v := Then(w0, ys, w1, SendB(Room(), LOSS));
    StepInv(w1, SendB(Room(), LOSS));
    SpentEntry(w, b, true);
    FlagSpent(w.a.snd, ack);
    var w3 := TakeReport(w2, |w1.toA|, ack);
    ys, v := Then(w0, ys, w2, DeliverA(|w1.toA|));
    StepInv(w2, DeliverA(|w1.toA|));
    KeepsInput(w2, DeliverA(|w1.toA|));
    Flagged(w, w3, b, ack);
  }

  /** The next write drops a flagged chunk. */
  lemma DropFlagged(w: World, b: Byte, n: nat)
    requires Waiting(w, b, n, false)
    ensures Idle(w.a.snd) && Defined(w, SendAll)
    ensures var v := Step(w, SendAll);
      && v.a.snd.sendBuffer.data == [] && v.a.snd.sentPkt == w.a.snd.sentPkt && v.a.snd.ranking == w.a.snd.ranking
      && From([b], 0) in v.created && v.b == w.b
  {
    hide Inv, SenderState.SendAll, SenderState.CanSendAll, Count, Covers, Protocol.Cut, S.KeptByOffset, StreamInv, TxInv, SafeInv;
    var s := w.a.snd;
    InvParts(w);
    CanAlwaysWrite(s, w.created);
    KeepsInput(w, SendAll);
    NothingCut(s);
    WriteUnflags(s, w.created);
    KeptNone(s.sendBuffer.data, s.sendBuffer.offsetRecv);
    SendAllFrame(s);
    QueueCreated(s, w.created);
    assert s.sendBuffer.data[0] in s.sendBuffer.data;
  }

  lemma QueueCreated(s: SenderState, created: seq<RangeBuf>)
    requires StreamInv(s, created)
    ensures Among(s.sendBuffer.data, created)
  {
  }

  /** The exact form of drop safety can fail, even in an orderly run: a chunk that never arrives is sent
      priority plus two times and then dropped. */
  lemma DropFails(b: Byte, ranking: Ranking) returns (xs: seq<Action>, w: World)
    requires Covers(ranking, 1)
    ensures Reaches([b], ranking, xs, w) && Orderly(Init([b], ranking), xs, w)
    ensures var c := From([b], 0);
      && c in w.created && c !in w.a.snd.sendBuffer.data && !Received(w, c)
      && Count(w.a.snd.sentPkt, 0) == Prio(ranking, 0) + 2
    ensures !NeverAt(Init([b], ranking), xs, w, 0)
  {
    hide IsRun, Orderly, Step, Init, Covers, Prio, Count, NeverAt, Opened, Idle, Inv, Waiting;
    var w0, n := Init([b], ranking), Prio(ranking, 0) + 1;
    xs, w := UnreportedResends(b, ranking, n);
    ReachesInv([b], ranking, xs, w);
    Reopen(w, b, n);
    KeepsInput(w, SendAll);
    xs, w := Then(w0, xs, w, SendAll);
    xs, w := FlagMidRound(w0, xs, w, b);
    xs, w := RoundRuns(w0, xs, w, b, n, false);
    WaitingFacts(w, b, n + 1);
    DropFlagged(w, b, n + 1);
    xs, w := Then(w0, xs, w, SendAll);
    DropSafetyExact([b], ranking, xs, w, From([b], 0));
  }

  lemma WaitingFacts(w: World, b: Byte, n: nat)
    requires Waiting(w, b, n, false)
    ensures Count(w.a.snd.sentPkt, 0) == n && w.b.rcv.recvDic == map[]
  {
  }

  // ------------------------------------------------------------ a duplicate

  /** From the start: the handshake, one round, and the first data packet delivered twice with a read in
      between leave the receiver unreadable. */
  lemma StallReached(b: Byte, ranking: Ranking, out: seq<Byte>) returns (xs: seq<Action>, w: World)
    requires Covers(ranking, 1) && out != []
    ensures Reaches([b], ranking, xs, w) && !Readable(w) && !NeverLate(Init([b], ranking), xs, w)
  {
    hide IsRun, Orderly, Init, Covers, Readable, NeverLate, Waiting, Inv, Quiet;
    var before, v := UnreportedResends(b, ranking, 1);
    var i := FirstData(v, b);
    w := DuplicateStalls(v, i, out);
    var ys := [DeliverB(i), Read(out), DeliverB(i)];
    NoStarts(v, ys, w);
    RunAppend(Init([b], ranking), before, v, ys, w);
    xs := before + ys;
    ReadingIff([b], ranking, xs, w);
    UnreadableCursor(w);
  }

  lemma UnreadableCursor(w: World)
    ensures Readable(w) <==> R.CursorBelow(w.b.rcv.recBuffer)
  {
  }

  lemma FirstData(w: World, b: Byte) returns (i: nat)
    requires Waiting(w, b, 1, true)
    ensures Inv(w) && i < |w.toB| && w.toB[i].hdr.ty == Application && w.toB[i].hdr.offset == 0
  {
    hide StreamInv, TxInv, SafeInv, ToAInv, ToBInv, ReceiverInv, Covers, Asked, DataOffsets, AskedExactly, Counted;
    i := DataFrom(w.toB, 0);
  }

  lemma {:induction false} NoStarts(w: World, xs: seq<Action>, v: World)
    requires IsRun(w, xs, v) && forall i :: 0 <= i < |xs| ==> !xs[i].SendAll?
    ensures Orderly(w, xs, v)
    decreases xs
  {
    hide Step, Enabled, Defined, Idle;
    if xs == [] {
    } else {
      NoStarts(Step(w, xs[0]), xs[1..], v);
    }
  }
}
