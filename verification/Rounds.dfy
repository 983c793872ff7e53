/** Rounds: the send window, the byte accounting and the exact number of calls in a round. */
module Rounds {
  import opened Bytes
  import opened Packet
  import opened Priority
  import opened RangeBuffer
  import opened Connection
  import opened Protocol
  import opened Safety
  import S = SendBuffer

  /** A round may be started: the last one has stopped, or there is nothing in the queue. */
  ghost predicate Idle(s: SenderState) {
    s.IsStopped() || s.sendBuffer.data == []
  }

  /** The transmissions of the round are the first `m` chunks of the queue, in order; while it runs,
      the send position and the byte accounting agree with them. */
  ghost predicate Progress(s: SenderState, roundStart: nat) {
    var b, m := s.sendBuffer, |s.sentPkt| - roundStart;
    && 0 <= m <= |b.data|
    && s.sentPkt[roundStart..] == S.Offsets(b.data[..m])
    && (s.stopFlag ==> b.pos == 0 && m > 0)
    && (!s.stopFlag ==> b.pos == m)
    && (!s.stopFlag && b.data != [] ==> S.InRound(b))
    && (b.data != [] ==> b.sent == S.TotalBytes(b.data[..m]) <= b.maxData + S.SEND_BUFFER_SIZE)
    && (b.data == [] ==> s.sentCount == 0)
  }

  ghost predicate RoundInv(w: World) {
    Progress(w.a.snd, w.roundStart)
  }

  /** Rounds are only started when the sender is idle. */
  ghost predicate Orderly(w: World, xs: seq<Action>, v: World)
    requires IsRun(w, xs, v)
    decreases xs
  {
    xs != [] ==> (xs[0] == SendAll ==> Idle(w.a.snd)) && Orderly(Step(w, xs[0]), xs[1..], v)
  }

  lemma QueueSized(s: SenderState, created: seq<RangeBuf>)
    requires StreamInv(s, created)
    ensures S.Sized(s.sendBuffer.data)
  {
    forall c | c in s.sendBuffer.data ensures |c.data| <= S.SEND_BUFFER_SIZE {
      assert S.InBlock(c);
    }
  }

  /** Idle means a start from the front of the queue, with nothing left to ask about. */
  lemma IdleStart(s: SenderState, roundStart: nat)
    requires Counted(s) && Progress(s, roundStart) && Idle(s)
    ensures s.sendBuffer.pos == 0 && s.sentCount == 0
  {
  }

  /** Starting a round from the front of the queue. */
  lemma StartRound(s: SenderState, created: seq<RangeBuf>)
    requires StreamInv(s, created) && s.sendBuffer.pos == 0 && s.sentCount == 0 && s.CanSendAll()
    ensures Progress(s.SendAll().0, |s.sentPkt|)
  {
    hide StreamInv, SenderState.SendAll, SenderState.CanSendAll, S.InRound, S.TotalBytes;
    var t := s.SendAll().0;
    SendAllFrame(s);
    StartInRound(s, created);
    assert t.sentPkt[|s.sentPkt|..] == [] && t.sendBuffer.data[..0] == [] && S.Offsets([]) == [];
    EmptyBytes();
  }

  lemma StartInRound(s: SenderState, created: seq<RangeBuf>)
    requires StreamInv(s, created) && s.sendBuffer.pos == 0 && s.CanSendAll()
    ensures var b := s.SendAll().0.sendBuffer; b.data != [] ==> S.InRound(b)
  {
    hide S.Valid, S.SendState.Write, S.InRound, S.TotalBytes, SenderState.Window, Among, S.Sized;
    QueueSized(s, created);
    if |s.sendData| > s.writtenData || s.sendBuffer.data != [] {
      S.WriteOpensRound(s.sendBuffer, s.sendData[s.writtenData..], s.Window().1);
    }
  }

  lemma EmptyBytes()
    ensures S.TotalBytes([]) == 0
  {
  }

  lemma InRoundSendable(b: S.SendState)
    requires S.InRound(b)
    ensures Sendable(b)
  {
  }

  /** One transmission inside a round. */
  lemma TransmitProgress(s: SenderState, created: seq<RangeBuf>, roundStart: nat, out: seq<Byte>)
    requires StreamInv(s, created) && Counted(s) && Progress(s, roundStart) && !s.stopFlag && s.sendBuffer.data != []
    requires |out| >= S.SEND_BUFFER_SIZE && s.CanSend()
    ensures Progress(s.SendApplication(out).state, roundStart)
  {
    hide SenderState.SendApplication, SenderState.CanSend, SenderState.Charge, StreamInv, S.SendState.Emit, S.TotalBytes, S.InRound, S.Offsets, Counted;
    var b := s.sendBuffer;
    InRoundSendable(b);
    S.EmitStep(b, out);
    TransmitFields(s, created, out);
    var m := |s.sentPkt| - roundStart;
    S.OffsetsSnoc(b.data, m);
    var t := s.SendApplication(out).state;
    assert t.sentPkt[roundStart..] == s.sentPkt[roundStart..] + [b.data[m].off];
  }

  /** With an empty queue `send_data` only answers `Done`. */
  lemma NothingToSend(s: SenderState, created: seq<RangeBuf>, roundStart: nat, out: seq<Byte>)
    requires StreamInv(s, created) && Counted(s) && Progress(s, roundStart) && s.sendBuffer.data == []
    ensures s.CanSend()
    ensures var r := s.SendApplication(out); r.result == Err(Done) && Progress(r.state, roundStart)
  {
  }

  lemma AckProgress(s: SenderState, t: SenderState, roundStart: nat)
    requires Progress(s, roundStart) && S.Valid(t.sendBuffer)
    requires t == s.(sendBuffer := t.sendBuffer, highPriority := t.highPriority, maxOff := t.maxOff, recovery := t.recovery)
    requires t.sendBuffer == s.sendBuffer.(offsetRecv := t.sendBuffer.offsetRecv)
    ensures Progress(t, roundStart)
  {
    hide S.Valid, S.TotalBytes, S.Sized;
  }

  lemma ElictProgress(s: SenderState, roundStart: nat, out: seq<Byte>)
    requires Progress(s, roundStart) && s.ackPoint <= |s.sentPkt|
    ensures Progress(s.(sentCount := 0).SendElictAck(out).state, roundStart)
  {
    hide S.InRound, S.TotalBytes;
  }

  lemma SendAProgress(w: World, out: seq<Byte>)
    requires Inv(w) && RoundInv(w) && Enabled(w, SendA(out)) && Defined(w, SendA(out))
    ensures RoundInv(Step(w, SendA(out)))
  {
    SendASender(w, out);
    InvParts(w);
    hide Inv, StreamInv, Counted, Progress, Step,
      SenderState.SendElictAck, SenderState.SendApplication, SenderState.CanSend, ConnState.WritePktType;
    var s, tail := w.a.snd, out[HEADER_LENGTH..];
    var ty := w.a.WritePktType().1;
    if ty == Ok(ElictAck) {
      ElictProgress(s, w.roundStart, tail);
    } else if ty == Ok(Application) {
      if s.sendBuffer.data == [] {
        NothingToSend(s, w.created, w.roundStart, tail);
      } else {
        TransmitProgress(s, w.created, w.roundStart, tail);
      }
    }
  }

  /** What any datagram delivered to the sender leaves alone. */
  lemma DeliverAFrame(w: World, i: nat)
    requires Inv(w) && Enabled(w, DeliverA(i)) && Defined(w, DeliverA(i))
    ensures var s, t := w.a.snd, Step(w, DeliverA(i)).a.snd;
      && t == s.(sendBuffer := t.sendBuffer, highPriority := t.highPriority, maxOff := t.maxOff, recovery := t.recovery)
      && t.sendBuffer == s.sendBuffer.(offsetRecv := t.sendBuffer.offsetRecv)
      && (!w.a.rttZero ==> !Step(w, DeliverA(i)).a.rttZero)
      && Step(w, DeliverA(i)).a.isServer && Step(w, DeliverA(i)).toB == w.toB
  {
    var ack, ps := DeliverASender(w, i);
    hide Inv, Step, Enabled, Defined, SenderState.Absorb, TruePair, SenderState.Ranked;
    AbsorbFrame(w.a.snd, ack, ps);
  }

  lemma RoundStep(w: World, x: Action)
    requires Inv(w) && RoundInv(w) && Enabled(w, x) && Defined(w, x)
    requires x == SendAll ==> Idle(w.a.snd)
    ensures RoundInv(Step(w, x))
  {
    match x
    case SendAll =>
      hide StreamInv, Progress, Idle, Counted;
      IdleStart(w.a.snd, w.roundStart);
      StartRound(w.a.snd, w.created);
    case SendA(out) => SendAProgress(w, out);
    case DeliverA(i) =>
      DeliverAInv(w, i);
      DeliverAFrame(w, i);
      hide Progress, S.Valid;
      AckProgress(w.a.snd, Step(w, x).a.snd, w.roundStart);
    case _ =>
      hide Progress;
  }

  lemma {:induction false} RoundRun(w: World, xs: seq<Action>, v: World)
    requires Inv(w) && RoundInv(w) && IsRun(w, xs, v) && Orderly(w, xs, v)
    ensures Inv(v) && RoundInv(v)
    decreases xs
  {
    hide Inv, RoundInv, Idle, Step, Enabled, Defined;
    if xs == [] {
    } else {
      StepInv(w, xs[0]);
      RoundStep(w, xs[0]);
      RoundRun(Step(w, xs[0]), xs[1..], v);
    }
  }

  // ------------------------------------------------------------ accounting in every run

  /** Where the next successful transmission starts: a position beyond the queue is reset first. */
  ghost function Front(b: S.SendState): nat {
    if Sendable(b) then b.pos else 0
  }

  /** The two length fields agree, are not negative, and cover the bytes the round may still send. */
  ghost predicate Books(s: SenderState) {
    var b := s.sendBuffer;
    && b.len == b.usedLength >= 0
    && (s.stopFlag ==> b.pos == 0)
    && (!s.stopFlag ==> b.len >= S.TotalBytes(b.data[Front(b)..]))
  }

  /** The transmissions since the last `send_all` are the chunks from position `start` on, in order and
      each once, and they exceed the window by at most one chunk. */
  ghost predicate Span(s: SenderState, roundStart: nat, start: nat) {
    var b, m := s.sendBuffer, |s.sentPkt| - roundStart;
    && 0 <= m && start + m <= |b.data|
    && s.sentPkt[roundStart..] == S.Offsets(b.data[start..start + m])
    && S.TotalBytes(b.data[start..start + m]) <= Min(b.sent, b.maxData + S.SEND_BUFFER_SIZE)
    && (s.stopFlag ==> m > 0)
    && (!s.stopFlag && m > 0 ==> b.pos == start + m < |b.data| && b.sent < b.maxData)
  }

  ghost predicate Accounts(s: SenderState, roundStart: nat) {
    Books(s) && exists start :: Span(s, roundStart, start)
  }

  ghost predicate AccountsInv(w: World) {
    Accounts(w.a.snd, w.roundStart)
  }

  /** What a data call does to the buffer: a chunk goes out, or nothing does and the position is reset
      or stays beyond the queue. */
  lemma EmitMoves(s: SenderState, created: seq<RangeBuf>, got: map<Word, Byte>, out: seq<Byte>)
    requires StreamInv(s, created) && TxInv(s, created) && SafeInv(s, created, got) && Counted(s)
    requires |out| >= S.SEND_BUFFER_SIZE && s.CanSend()
    ensures var b, t := s.sendBuffer, s.SendApplication(out).state;
      if Sendable(b) then
        var c := b.data[b.pos];
        var stop := b.sent + |c.data| >= b.maxData || b.pos + 1 == |b.data|;
        && |c.data| <= S.SEND_BUFFER_SIZE && c.off < U64
        && t.sendBuffer == b.(pos := if stop then 0 else b.pos + 1, len := b.len - |c.data|,
                              usedLength := b.usedLength - |c.data|, sent := b.sent + |c.data|)
        && t.stopFlag == (s.stopFlag || stop) && t.sentPkt == s.sentPkt + [c.off]
      else
        && t == s.(sendBuffer := t.sendBuffer)
        && t.sendBuffer == b.(pos := t.sendBuffer.pos, sent := t.sendBuffer.sent)
        && Front(t.sendBuffer) == 0 && b.sent <= t.sendBuffer.sent
  {
    if Sendable(s.sendBuffer) {
      hide SenderState.SendApplication, SenderState.CanSend, SenderState.Charge, S.SendState.Emit, TxInv, SafeInv, Counted, StreamInv;
      TransmitFields(s, created, out);
      NextChunk(s, created);
      S.EmitCopies(s.sendBuffer, out);
    } else {
      hide TxInv, SafeInv, Counted, Tiles, S.Valid;
      assert S.SkipEmpty(s.sendBuffer.data, s.sendBuffer.pos) == s.sendBuffer.pos;
    }
  }

  lemma NextChunk(s: SenderState, created: seq<RangeBuf>)
    requires StreamInv(s, created) && Sendable(s.sendBuffer)
    ensures var c := s.sendBuffer.data[s.sendBuffer.pos]; c.pos == 0 && 0 < |c.data| <= S.SEND_BUFFER_SIZE
  {
    var c := s.sendBuffer.data[s.sendBuffer.pos];
    assert c in s.sendBuffer.data && S.InBlock(c);
  }

  /** Any `send_all` opens the books anew. */
  lemma SendAllAccounts(s: SenderState, created: seq<RangeBuf>, roundStart: nat)
    requires StreamInv(s, created) && Accounts(s, roundStart) && s.CanSendAll()
    ensures Accounts(s.SendAll().0, |s.sentPkt|)
  {
    hide StreamInv, SenderState.SendAll, SenderState.CanSendAll, S.TotalBytes, Span;
    var t := s.SendAll().0;
    SendAllFrame(s);
    SendAllLengths(s, created);
    EmptyBytes();
    TailBytes(t.sendBuffer.data, Front(t.sendBuffer));
    EmptySpan(t);
  }

  /** A write sets both length fields to the bytes queued; without one the queue is empty. */
  lemma SendAllLengths(s: SenderState, created: seq<RangeBuf>)
    requires StreamInv(s, created) && s.CanSendAll()
    ensures var b := s.SendAll().0.sendBuffer;
      (b == s.sendBuffer && b.data == []) || b.len == b.usedLength == S.TotalBytes(b.data)
  {
    hide S.Valid, S.SendState.Write, S.TotalBytes, SenderState.Window, S.KeptByOffset, Among;
    if |s.sendData| > s.writtenData || s.sendBuffer.data != [] {
      S.WriteFills(s.sendBuffer, s.sendData[s.writtenData..], s.Window().1);
    }
  }

  lemma TailBytes(cs: seq<RangeBuf>, i: nat)
    requires i <= |cs|
    ensures S.TotalBytes(cs[i..]) <= S.TotalBytes(cs)
  {
    S.TotalBytesAppend(cs[..i], cs[i..]);
    assert cs[..i] + cs[i..] == cs;
  }

  lemma EmptySpan(s: SenderState)
    requires !s.stopFlag
    ensures Span(s, |s.sentPkt|, 0)
  {
    assert s.sendBuffer.data[0..0] == [] && S.Offsets([]) == [];
  }

  lemma TransmitBooks(s: SenderState, t: SenderState)
    requires Books(s) && !s.stopFlag && Sendable(s.sendBuffer)
    requires var b := s.sendBuffer; var c := b.data[b.pos];
      var stop := b.sent + |c.data| >= b.maxData || b.pos + 1 == |b.data|;
      && t.sendBuffer == b.(pos := if stop then 0 else b.pos + 1, len := b.len - |c.data|,
                            usedLength := b.usedLength - |c.data|, sent := b.sent + |c.data|)
      && t.stopFlag == stop
    ensures Books(t)
  {
    hide S.TotalBytes;
    S.TotalBytesSplit(s.sendBuffer.data, s.sendBuffer.pos);
  }

  lemma TransmitSpan(s: SenderState, t: SenderState, roundStart: nat, start: nat)
    requires Span(s, roundStart, start) && !s.stopFlag && Sendable(s.sendBuffer)
    requires var b := s.sendBuffer; var c := b.data[b.pos];
      var stop := b.sent + |c.data| >= b.maxData || b.pos + 1 == |b.data|;
      && |c.data| <= S.SEND_BUFFER_SIZE && c.off < U64
      && t.sendBuffer == b.(pos := if stop then 0 else b.pos + 1, len := b.len - |c.data|,
                            usedLength := b.usedLength - |c.data|, sent := b.sent + |c.data|)
      && t.stopFlag == stop && t.sentPkt == s.sentPkt + [c.off]
    ensures Span(t, roundStart, if |s.sentPkt| == roundStart then s.sendBuffer.pos else start)
  {
    var b, m := s.sendBuffer, |s.sentPkt| - roundStart;
    var from := if m == 0 then b.pos else start;
    hide S.TotalBytes, S.Offsets;
    SegmentGrows(b.data, from, m);
    NoOffsets(b.data, from);
    EmptyBytes();
    assert t.sentPkt[roundStart..] == s.sentPkt[roundStart..] + [b.data[b.pos].off];
  }

  lemma SegmentGrows(cs: seq<RangeBuf>, from: nat, m: nat)
    requires from + m < |cs|
    ensures S.Offsets(cs[from..from + m + 1]) == S.Offsets(cs[from..from + m]) + [cs[from + m].off]
    ensures S.TotalBytes(cs[from..from + m + 1]) == S.TotalBytes(cs[from..from + m]) + |cs[from + m].data|
  {
    var tail := cs[from..];
    assert tail[..m + 1] == cs[from..from + m + 1] && tail[..m] == cs[from..from + m];
    S.OffsetsSnoc(tail, m);
    S.TotalBytesSplit(tail, m);
  }

  lemma ApplicationAccounts(s: SenderState, created: seq<RangeBuf>, got: map<Word, Byte>, roundStart: nat, out: seq<Byte>)
    requires StreamInv(s, created) && TxInv(s, created) && SafeInv(s, created, got) && Counted(s)
    requires Accounts(s, roundStart) && !s.stopFlag && |out| >= S.SEND_BUFFER_SIZE && s.CanSend()
    ensures Accounts(s.SendApplication(out).state, roundStart)
  {
    hide StreamInv, TxInv, SafeInv, Counted, Span, Books, SenderState.SendApplication, SenderState.CanSend;
    EmitMoves(s, created, got, out);
    var t := s.SendApplication(out).state;
    var start :| Span(s, roundStart, start);
    if Sendable(s.sendBuffer) {
      TransmitBooks(s, t);
      TransmitSpan(s, t, roundStart, start);
    } else {
      NothingMoves(s, t, roundStart, start);
    }
  }

  lemma NothingMoves(s: SenderState, t: SenderState, roundStart: nat, start: nat)
    requires Books(s) && Span(s, roundStart, start) && !Sendable(s.sendBuffer) && !s.stopFlag
    requires t == s.(sendBuffer := t.sendBuffer) && Front(t.sendBuffer) == 0
    requires t.sendBuffer == s.sendBuffer.(pos := t.sendBuffer.pos, sent := t.sendBuffer.sent) && s.sendBuffer.sent <= t.sendBuffer.sent
    ensures Books(t) && Span(t, roundStart, start)
  {
  }

  /** The accounts do not depend on flags and acknowledgement counters. */
  lemma SameAccounts(s: SenderState, t: SenderState, roundStart: nat)
    requires Accounts(s, roundStart)
    requires t.sentPkt == s.sentPkt && t.stopFlag == s.stopFlag
    requires t.sendBuffer == s.sendBuffer.(offsetRecv := t.sendBuffer.offsetRecv)
    ensures Accounts(t, roundStart)
  {
    hide S.TotalBytes, S.Offsets;
    var start :| Span(s, roundStart, start);
    assert Span(t, roundStart, start);
  }

  lemma SendAAccounts(w: World, out: seq<Byte>)
    requires Inv(w) && AccountsInv(w) && Enabled(w, SendA(out)) && Defined(w, SendA(out))
    ensures AccountsInv(Step(w, SendA(out)))
  {
    hide Inv, StreamInv, TxInv, SafeInv, Counted, Accounts, Step, Defined,
      SenderState.SendElictAck, SenderState.SendApplication, SenderState.CanSend, ConnState.WritePktType;
    SendASender(w, out);
    InvParts(w);
    var s, v, tail := w.a.snd, Step(w, SendA(out)), out[HEADER_LENGTH..];
    var ty := w.a.WritePktType().1;
    if ty == Ok(ElictAck) {
      ElictFields(s, tail);
      SameAccounts(s, v.a.snd, w.roundStart);
    } else if ty == Ok(Application) {
      ApplicationAccounts(s, w.created, w.b.rcv.recvDic, w.roundStart, tail);
    }
  }

  lemma ElictFields(s: SenderState, out: seq<Byte>)
    requires s.ackPoint <= |s.sentPkt|
    ensures var t := s.(sentCount := 0).SendElictAck(out).state;
      t.sendBuffer == s.sendBuffer && t.stopFlag == s.stopFlag && t.sentPkt == s.sentPkt && t.nextPktNum == s.nextPktNum
  {
  }

  lemma AccountsStep(w: World, x: Action)
    requires Inv(w) && AccountsInv(w) && Enabled(w, x) && Defined(w, x)
    ensures AccountsInv(Step(w, x))
  {
    hide Inv, Accounts, StreamInv, TxInv, SafeInv, Counted, ConnState.SendData, ConnState.RecvSlice;
    match x
    case SendAll =>
      InvParts(w);
      SendAllAccounts(w.a.snd, w.created, w.roundStart);
    case SendA(out) => SendAAccounts(w, out);
    case DeliverA(i) =>
      DeliverAFrame(w, i);
      SameAccounts(w.a.snd, Step(w, x).a.snd, w.roundStart);
    case _ =>
  }

  /** Whatever the caller does, mid-round `send_all` included, the accounts stay in order. */
  lemma {:induction false} AccountsRun(w: World, xs: seq<Action>, v: World)
    requires Inv(w) && AccountsInv(w) && IsRun(w, xs, v)
    ensures Inv(v) && AccountsInv(v)
    decreases xs
  {
    hide Inv, AccountsInv, Step, Enabled, Defined;
    if xs == [] {
    } else {
      StepInv(w, xs[0]);
      AccountsStep(w, xs[0]);
      AccountsRun(Step(w, xs[0]), xs[1..], v);
    }
  }

  // ------------------------------------------------------------ the exact length of a round

  /** The chunks the round will still transmit. */
  ghost function ToSend(s: SenderState): nat {
    var b := s.sendBuffer;
    if s.stopFlag then 0 else S.Quota(b.data, b.maxData, b.pos, b.sent)
  }

  /** `send_data` calls until the round has stopped: the chunks still to be emitted, and one
      solicitation for every eight transmissions and for the rest. */
  ghost function CallsLeft(s: SenderState): nat {
    if s.IsStopped() then 0
    else if s.stopFlag then 1
    else ToSend(s) + (s.sentCount + ToSend(s) + 7) / 8
  }

  /** All transmissions up to the end of the round. */
  ghost function Planned(s: SenderState): seq<int>
    requires s.stopFlag || s.sendBuffer.pos <= |s.sendBuffer.data|
  {
    var b := s.sendBuffer;
    s.sentPkt + if s.stopFlag then [] else S.Offsets(b.data[b.pos..b.pos + ToSend(s)])
  }

  /** In a running round the handshake is done, and there is a chunk at the send position or the last
      one is out. */
  ghost predicate Running(w: World) {
    Inv(w) && !w.a.rttZero && (w.a.snd.stopFlag || Sendable(w.a.snd.sendBuffer))
  }

  lemma RunningCalls(w: World)
    requires Running(w)
    ensures w.a.snd.IsStopped() <==> CallsLeft(w.a.snd) == 0
  {
  }

  lemma TransmitCalls(s: SenderState, created: seq<RangeBuf>, out: seq<Byte>)
    requires StreamInv(s, created) && Counted(s) && !s.stopFlag && Sendable(s.sendBuffer)
    requires s.sentCount < ELICT_FLAG && |out| >= S.SEND_BUFFER_SIZE && s.CanSend()
    ensures var r := s.SendApplication(out);
      && r.result.Ok? && !r.state.stopAck && (r.state.stopFlag || Sendable(r.state.sendBuffer))
      && CallsLeft(r.state) == CallsLeft(s) - 1 && Planned(r.state) == Planned(s)
  {
    hide SenderState.SendApplication, SenderState.CanSend, SenderState.Charge, StreamInv, S.SendState.Emit, S.Quota, S.Offsets;
    TransmitFields(s, created, out);
    NextChunk(s, created);
    var b := s.sendBuffer;
    S.EmitCopies(b, out);
    S.QuotaStep(b, out);
    S.OffsetsCons(b.data, b.pos, ToSend(s));
    NoOffsets(b.data, b.pos + 1);
  }

  lemma NoOffsets(cs: seq<RangeBuf>, i: nat)
    requires i <= |cs|
    ensures cs[i..i] == [] && S.Offsets(cs[i..i]) == []
  {
  }

  lemma ElictCalls(s: SenderState, out: seq<Byte>)
    requires Counted(s) && |out| >= 64 && (s.stopFlag || Sendable(s.sendBuffer))
    requires s.stopFlag || (s.sentCount % ELICT_FLAG == 0 && s.sentCount > 0)
    ensures var r := s.(sentCount := 0).SendElictAck(out);
      && r.result.Ok? && r.state.sendBuffer == s.sendBuffer && r.state.stopFlag == s.stopFlag
      && CallsLeft(r.state) == (if s.IsStopped() then 0 else CallsLeft(s) - 1)
      && Planned(r.state) == Planned(s)
  {
    hide S.Quota, S.Offsets;
    ElictBody(s, out);
  }

  lemma RunningParts(w: World)
    requires Running(w)
    ensures StreamInv(w.a.snd, w.created) && Counted(w.a.snd)
    ensures w.a.isServer && !w.a.recvFlag && !w.a.rttZero && (w.a.snd.stopFlag || Sendable(w.a.snd.sendBuffer))
    ensures w.a.snd.IsStopped() <==> CallsLeft(w.a.snd) == 0
  {
    RunningCalls(w);
  }

  /** Each call of a running round succeeds and brings the stop one call nearer; further calls
      succeed too and change nothing about it. */
  lemma SendACalls(w: World, out: seq<Byte>)
    requires Running(w) && Enabled(w, SendA(out)) && Defined(w, SendA(out))
    ensures var v := Step(w, SendA(out));
      && Running(v) && |v.toB| == |w.toB| + 1
      && CallsLeft(v.a.snd) == (if CallsLeft(w.a.snd) == 0 then 0 else CallsLeft(w.a.snd) - 1)
      && Planned(v.a.snd) == Planned(w.a.snd)
  {
    hide Inv, StreamInv, CallsLeft, Planned, SenderState.SendElictAck, SenderState.SendApplication, ConnState.SendData;
    RunningParts(w);
    SendAInv(w, out);
    SendDataByType(w.a, out, []);
    var s, tail := w.a.snd, out[HEADER_LENGTH..];
    if w.a.WritePktType().1 == Ok(ElictAck) {
      ElictCalls(s, tail);
    } else {
      TransmitCalls(s, w.created, tail);
    }
  }

  /** Nothing else changes how far a round is. */
  lemma OtherCalls(w: World, x: Action)
    requires Running(w) && Enabled(w, x) && Defined(w, x) && !x.SendA? && !x.SendAll?
    ensures var v := Step(w, x);
      && Running(v) && v.toB == w.toB
      && CallsLeft(v.a.snd) == CallsLeft(w.a.snd) && Planned(v.a.snd) == Planned(w.a.snd)
  {
    hide Inv, CallsLeft, Planned, ConnState.SendData, ConnState.RecvSlice, ConnState.CanSend, ConnState.CanReceive;
    StepInv(w, x);
    match x
    case DeliverA(i) =>
      DeliverAFrame(w, i);
      FlagsDoNotCount(w.a.snd, Step(w, x).a.snd);
    case _ =>
  }

  lemma FlagsDoNotCount(s: SenderState, t: SenderState)
    requires s.stopFlag || Sendable(s.sendBuffer)
    requires t == s.(sendBuffer := t.sendBuffer, highPriority := t.highPriority, maxOff := t.maxOff, recovery := t.recovery)
    requires t.sendBuffer == s.sendBuffer.(offsetRecv := t.sendBuffer.offsetRecv)
    ensures CallsLeft(t) == CallsLeft(s) && Planned(t) == Planned(s)
  {
    hide S.Quota, S.Offsets;
  }

  ghost function Sends(xs: seq<Action>): nat {
    if xs == [] then 0 else (if xs[0].SendA? then 1 else 0) + Sends(xs[1..])
  }

  /** However datagrams arrive in between, a round that has `n` calls left has stopped after exactly
      `n` of them, and each of them put one packet on the wire. */
  lemma {:induction false} RoundLength(w: World, xs: seq<Action>, v: World)
    requires Running(w) && IsRun(w, xs, v) && forall i :: 0 <= i < |xs| ==> !xs[i].SendAll?
    ensures Running(v) && Planned(v.a.snd) == Planned(w.a.snd)
    ensures CallsLeft(v.a.snd) == if Sends(xs) >= CallsLeft(w.a.snd) then 0 else CallsLeft(w.a.snd) - Sends(xs)
    ensures v.a.snd.IsStopped() <==> Sends(xs) >= CallsLeft(w.a.snd)
    ensures |v.toB| == |w.toB| + Sends(xs)
    decreases xs
  {
    hide Running, CallsLeft, Planned, Step, Enabled, Defined;
    if xs == [] {
      RunningCalls(w);
    } else {
      var x, u := xs[0], Step(w, xs[0]);
      if x.SendA? {
        SendACalls(w, x.out);
      } else {
        OtherCalls(w, x);
      }
      RoundLength(u, xs[1..], v);
    }
  }

  /** What `send_all` leaves alone, and the byte counter it resets if there is anything to send. */
  lemma SendAllFrame(s: SenderState)
    requires s.CanSendAll()
    ensures var t := s.SendAll().0;
      && !t.stopFlag && !t.stopAck && t.sentPkt == s.sentPkt && t.sentCount == s.sentCount
      && t.sendBuffer.pos == s.sendBuffer.pos && (t.sendBuffer.data != [] ==> t.sendBuffer.sent == 0)
  {
    hide S.SendState.Write, SenderState.Window, S.SendState.Added, S.SendState.Accepted, S.SendState.RecvAndDrop, S.Mark, S.TotalBytes;
    if |s.sendData| > s.writtenData || s.sendBuffer.data != [] {
      S.WriteFields(s.sendBuffer, s.sendData[s.writtenData..], s.Window().1, S.Lead(s.totalOffset));
    }
  }

  /** A round that is started anywhere with a chunk at the send position takes exactly
      `m + ceil((n + m) / 8)` calls, where `n` transmissions were still to be asked about and `m` is the
      least number of chunks from the position on that fill the window, or all of them; and it
      transmits exactly those. */
  lemma RoundFromStart(w: World, xs: seq<Action>, v: World)
    requires Inv(w) && !w.a.rttZero && w.a.snd.CanSendAll() && Sendable(Step(w, SendAll).a.snd.sendBuffer)
    requires IsRun(Step(w, SendAll), xs, v) && forall i :: 0 <= i < |xs| ==> !xs[i].SendAll?
    ensures var s, b := w.a.snd, Step(w, SendAll).a.snd.sendBuffer;
      var rest := b.data[b.pos..];
      var m := S.Quota(rest, b.maxData, 0, 0);
      && b.pos == s.sendBuffer.pos && 1 <= m <= |rest|
      && (v.a.snd.IsStopped() <==> Sends(xs) >= m + (s.sentCount + m + 7) / 8)
      && |v.toB| == |w.toB| + Sends(xs)
      && (v.a.snd.IsStopped() ==> v.a.snd.sentPkt == s.sentPkt + S.Offsets(rest[..m]))
      && (m < |rest| ==> S.Gone(rest, m) >= b.maxData)
      && (forall k :: 0 < k < m ==> S.Gone(rest, k) < b.maxData)
  {
    hide Inv, CallsLeft, Planned, SenderState.CanSendAll, SenderState.SendAll, IsRun, S.Gone, S.Quota, S.Offsets, Cut;
    SendAllFrame(w.a.snd);
    var u := Step(w, SendAll);
    StartedRound(w);
    RoundLength(u, xs, v);
    PlannedAtStart(u.a.snd);
    PlannedAtStop(v.a.snd);
  }

  lemma StartedRound(w: World)
    requires Inv(w) && !w.a.rttZero && w.a.snd.CanSendAll() && Sendable(Step(w, SendAll).a.snd.sendBuffer)
    ensures Running(Step(w, SendAll)) && Step(w, SendAll).toB == w.toB
  {
    hide Inv, SenderState.SendAll, SenderState.CanSendAll, Cut;
    SendAllInv(w);
  }

  lemma PlannedAtStop(s: SenderState)
    requires s.stopFlag || Sendable(s.sendBuffer)
    ensures s.IsStopped() ==> Planned(s) == s.sentPkt
  {
  }

  /** What is planned, and how many calls it takes, when a round has just been started. */
  lemma PlannedAtStart(s: SenderState)
    requires !s.stopFlag && !s.stopAck && Sendable(s.sendBuffer) && s.sendBuffer.sent == 0
    ensures var b := s.sendBuffer;
      var rest := b.data[b.pos..];
      var m := S.Quota(rest, b.maxData, 0, 0);
      && 1 <= m <= |rest|
      && CallsLeft(s) == m + (s.sentCount + m + 7) / 8 && Planned(s) == s.sentPkt + S.Offsets(rest[..m])
      && (m < |rest| ==> S.Gone(rest, m) >= b.maxData)
      && (forall k :: 0 < k < m ==> S.Gone(rest, k) < b.maxData)
  {
    hide S.Gone, S.Quota, S.Offsets;
    var b := s.sendBuffer;
    var rest := b.data[b.pos..];
    S.QuotaShift(b.data, b.maxData, b.pos, 0, 0);
    NothingGone(rest);
    S.QuotaIsLeast(rest, b.maxData, 0);
    var m := S.Quota(rest, b.maxData, 0, 0);
    assert b.data[b.pos..b.pos + m] == rest[..m];
  }

  lemma NothingGone(cs: seq<RangeBuf>)
    ensures S.Gone(cs, 0) == 0
  {
    assert cs[..0] == [];
  }
}
