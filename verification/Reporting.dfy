/** Reports over runs: what arrived is reported as received, and what is reported as received leaves the
    queue for good; packet numbers and recorded priorities. */
module Reporting {
  import opened Bytes
  import opened Packet
  import opened Priority
  import opened RangeBuffer
  import opened Connection
  import opened Protocol
  import opened Safety
  import opened Rounds
  import opened Budget
  import opened Theorems
  import S = SendBuffer

  // ------------------------------------------------------------ what arrived is reported as received

  /** The chunk at `o` has arrived, and no pending report says otherwise. */
  ghost predicate Answering(w: World, o: Word) {
    var r := w.b.rcv;
    o in r.recvDic && (o in r.recvHashmap ==> r.recvHashmap[o] == 0)
  }

  ghost predicate Pending(w: World, o: Word) {
    o in w.b.rcv.recvHashmap
  }

  /** `d` is an acknowledgement that reports `o` as received. */
  ghost predicate Acknowledges(d: Datagram, o: Word) {
    d.hdr.ty == ACK && |d.body| % 16 == 8 && Pair(o, 0) in AckPairs(d.body)
  }

  /** `d` does not report `o` as lost. */
  ghost predicate NotLost(d: Datagram, o: Word) {
    d.hdr.ty == ACK && |d.body| % 16 == 8 ==> forall p :: p in AckPairs(d.body) && p.off == o ==> p.lost == 0
  }

  /** What was sent since: nothing reports `o` as lost, and a report that was pending still is or is out. */
  ghost predicate Answered(w: World, v: World, o: Word) {
    && Answering(v, o) && w.toA <= v.toA
    && (forall k :: |w.toA| <= k < |v.toA| ==> NotLost(v.toA[k], o))
    && (Pending(w, o) ==> Pending(v, o) || exists k :: |w.toA| <= k < |v.toA| && Acknowledges(v.toA[k], o))
  }

  lemma AnsweredChain(w: World, u: World, v: World, o: Word)
    requires Answered(w, u, o) && Answered(u, v, o)
    ensures Answered(w, v, o)
  {
    hide Acknowledges, NotLost;
    forall k | |w.toA| <= k < |v.toA| ensures NotLost(v.toA[k], o) {
      if k < |u.toA| {
        assert v.toA[k] == u.toA[k];
      }
    }
    if Pending(w, o) && !Pending(u, o) {
      var k :| |w.toA| <= k < |u.toA| && Acknowledges(u.toA[k], o);
      assert v.toA[k] == u.toA[k];
    }
  }

  lemma {:induction false} InOrdering(order: seq<Pair>, m: map<Word, Word>, o: Word)
    requires IsOrdering(order, m) && o in m
    ensures Pair(o, m[o]) in order
  {
    var offs := set p | p in order :: p.off;
    forall x | x in offs ensures x in m.Keys {
    }
    DistinctOffsets(order);
    assert |m.Keys| == |m|;
    SameSize(offs, m.Keys);
    assert o in offs;
  }

  lemma SameSize(a: set<Word>, b: set<Word>)
    requires a <= b && |a| == |b|
    ensures a == b
  {
    assert b == a + (b - a) && |b - a| == |b| - |a|;
  }

  lemma {:induction false} DistinctOffsets(order: seq<Pair>)
    requires forall i, j :: 0 <= i < j < |order| ==> order[i].off != order[j].off
    ensures |set p | p in order :: p.off| == |order|
  {
    var offs := set p | p in order :: p.off;
    if order == [] {
      assert offs == {};
    } else {
      var k := |order| - 1;
      var rest := set p | p in order[..k] :: p.off;
      DistinctOffsets(order[..k]);
      assert order == order[..k] + [order[k]];
      assert offs == rest + {order[k].off};
      assert order[k].off !in rest;
    }
  }

  /** A `send_data` call of the receiver. */
  lemma SendBAnswers(w: World, out: seq<Byte>, order: seq<Pair>, o: Word)
    requires Inv(w) && Enabled(w, SendB(out, order)) && Defined(w, SendB(out, order)) && Answering(w, o)
    ensures Answered(w, Step(w, SendB(out, order)), o)
  {
    hide StreamInv, TxInv, SafeInv, ToBInv, ToAInv, LogInv, Counted, ReceiverInv, ConnState.SendData, ConnState.CanSend, AckBody, IsOrdering;
    var v, r := Step(w, SendB(out, order)), w.b.SendData(out, order);
    PassiveSends(w.b, out, order);
    PassiveClears(w.b, out, order);
    if r.result.Ok? {
      var d := r.result.value;
      assert v.toA == w.toA + [d];
      if d.hdr.ty == ACK {
        AckBodyRoundTrip(w.b.rcv.recBuffer.maxRecvOff % U64, order);
        OrderedReports(w.b.rcv.recvHashmap, order, o);
        assert Pending(w, o) ==> Acknowledges(v.toA[|w.toA|], o);
      }
    }
  }

  lemma OrderedReports(m: map<Word, Word>, order: seq<Pair>, o: Word)
    requires IsOrdering(order, m) && (o in m ==> m[o] == 0)
    ensures forall p :: p in order && p.off == o ==> p.lost == 0
    ensures o in m ==> Pair(o, 0) in order
  {
    if o in m {
      InOrdering(order, m, o);
    }
  }

  /** Pending reports are only cleared by an acknowledgement that goes out. */
  lemma PassiveClears(b: ConnState, out: seq<Byte>, order: seq<Pair>)
    requires Passive(b) && b.CanSend(out)
    ensures var r := b.SendData(out, order);
      r.state.rcv.recvHashmap == b.rcv.recvHashmap || (r.result.Ok? && r.result.value.hdr.ty == ACK)
  {
    hide AckBody, ConnState.SendData;
    if out != [] {
      SendDataByType(b, out, order);
    } else {
      SendDataEmpty(b, order);
    }
  }

  lemma DeliverBAnswers(w: World, i: nat, o: Word)
    requires Inv(w) && Enabled(w, DeliverB(i)) && Defined(w, DeliverB(i)) && Answering(w, o)
    ensures Answered(w, Step(w, DeliverB(i)), o)
  {
    hide StreamInv, TxInv, SafeInv, LogInv, Counted, ReceiverInv, ToAInv, ConnState.RecvSlice, ConnState.CanReceive, Wire,
      ReceiverState.CheckLoss, DecodeWords;
    var d := w.toB[i];
    assert d in w.toB && Honest(d, w.created, w.a.snd.sentPkt, w.a.snd.ranking);
    PassiveTakes(w.b, d);
    if d.hdr.ty == ElictAck {
      CheckLossAnswers(w.b.rcv, DecodeWords(d.body));
    }
  }

  lemma AnswersStep(w: World, x: Action, o: Word)
    requires Inv(w) && Enabled(w, x) && Defined(w, x) && Answering(w, o)
    ensures Answered(w, Step(w, x), o)
  {
    hide Inv, Acknowledges, NotLost, ConnState.SendData, ConnState.RecvSlice;
    match x
    case SendB(out, order) => SendBAnswers(w, out, order, o);
    case DeliverB(i) => DeliverBAnswers(w, i, o);
    case _ =>
  }

  lemma {:induction false} AnswersRun(w: World, xs: seq<Action>, v: World, o: Word)
    requires Inv(w) && IsRun(w, xs, v) && Answering(w, o)
    ensures Answered(w, v, o)
    decreases xs
  {
    hide Inv, Step, Enabled, Defined, Acknowledges, NotLost;
    if xs == [] {
    } else {
      var u := Step(w, xs[0]);
      AnswersStep(w, xs[0], o);
      StepInv(w, xs[0]);
      AnswersRun(u, xs[1..], v, o);
      AnsweredChain(w, u, v, o);
    }
  }

  /** A solicitation that is delivered after the chunk was stored is answered by "received": whatever else
      happens, no acknowledgement sent from then on reports the chunk as lost, and the first one
      reports it as received. */
  lemma ArrivalReported(stream: seq<Byte>, ranking: Ranking, xs: seq<Action>, w: World, i: nat, o: Word, ys: seq<Action>, v: World)
    requires Reaches(stream, ranking, xs, w) && i < |w.toB| && w.toB[i].hdr.ty == ElictAck
    requires |w.toB[i].body| % 8 == 0 && o in DecodeWords(w.toB[i].body) && o in w.b.rcv.recvDic
    requires Defined(w, DeliverB(i)) && IsRun(Step(w, DeliverB(i)), ys, v)
    ensures w.toA <= v.toA && (forall k :: |w.toA| <= k < |v.toA| ==> NotLost(v.toA[k], o))
    ensures (o in v.b.rcv.recvHashmap && v.b.rcv.recvHashmap[o] == 0)
      || exists k :: |w.toA| <= k < |v.toA| && Acknowledges(v.toA[k], o)
  {
    hide Inv, IsRun, Acknowledges, NotLost;
    ReachesInv(stream, ranking, xs, w);
    var u := Step(w, DeliverB(i));
    Solicits(w, i, o);
    StepInv(w, DeliverB(i));
    AnswersRun(u, ys, v, o);
  }

  lemma Solicits(w: World, i: nat, o: Word)
    requires Inv(w) && i < |w.toB| && w.toB[i].hdr.ty == ElictAck && |w.toB[i].body| % 8 == 0 && Defined(w, DeliverB(i))
    requires o in DecodeWords(w.toB[i].body) && o in w.b.rcv.recvDic
    ensures var u := Step(w, DeliverB(i)); Answering(u, o) && Pending(u, o) && u.toA == w.toA
  {
    hide StreamInv, TxInv, SafeInv, LogInv, Counted, ReceiverInv, ToAInv, ToBInv, ConnState.RecvSlice, ConnState.CanReceive, Wire,
      ReceiverState.CheckLoss, DecodeWords;
    PassiveTakes(w.b, w.toB[i]);
    CheckLossAnswers(w.b.rcv, DecodeWords(w.toB[i].body));
  }

  // ------------------------------------------------------------ what is reported as received leaves the queue

  /** The chunk at `o` was written, and is flagged if it is still queued. */
  ghost predicate Leaving(w: World, o: Word) {
    var s := w.a.snd;
    o < s.writtenData && (o in s.sendBuffer.offsetRecv ==> !s.sendBuffer.offsetRecv[o])
  }

  /** It was written and is not queued. */
  ghost predicate Absent(w: World, o: Word) {
    o < w.a.snd.writtenData && forall c :: c in w.a.snd.sendBuffer.data ==> c.off != o
  }

  /** A report "received" flags the chunk. */
  lemma ReportFlags(w: World, i: nat, o: Word)
    requires Inv(w) && i < |w.toA| && Acknowledges(w.toA[i], o) && Defined(w, DeliverA(i))
    ensures Leaving(Step(w, DeliverA(i)), o)
  {
    hide Inv, Step, Defined, StreamInv, TxInv, SafeInv, SenderState.Absorb, SenderState.Ranked, AckPairs;
    var ack, ps := DeliverASender(w, i);
    var s := w.a.snd;
    assert TruePair(Pair(o, 0), s.sentPkt, w.b.rcv.recvDic);
    InvParts(w);
    KnownWritten(s, w.created, o);
    AbsorbEffect(s, ack, ps);
    assert FlaggedBy(s, ps, o);
  }

  lemma KnownWritten(s: SenderState, created: seq<RangeBuf>, o: nat)
    requires StreamInv(s, created) && TxInv(s, created) && o in s.sentPkt
    ensures o < s.writtenData
  {
    hide StreamInv;
    BeginsWritten(s, created, o);
  }

  lemma LeavingStep(w: World, x: Action, o: Word)
    requires Inv(w) && Enabled(w, x) && Defined(w, x) && Leaving(w, o) && !x.SendAll?
    ensures Leaving(Step(w, x), o)
  {
    hide Inv, ConnState.SendData, ConnState.RecvSlice;
    match x
    case SendA(out) =>
      SendABuffer(w, out);
      SendAWritten(w, out);
    case DeliverA(i) => DeliverALeaving(w, i, o);
    case _ =>
  }

  lemma SendAWritten(w: World, out: seq<Byte>)
    requires Inv(w) && Enabled(w, SendA(out)) && Defined(w, SendA(out))
    ensures Step(w, SendA(out)).a.snd.writtenData == w.a.snd.writtenData
  {
    SendASender(w, out);
    hide Inv, Step, Enabled, Defined, S.SendState.Emit, ConnState.WritePktType;
  }

  /** Acknowledgements only ever clear flags. */
  lemma DeliverALeaving(w: World, i: nat, o: Word)
    requires Inv(w) && Enabled(w, DeliverA(i)) && Defined(w, DeliverA(i)) && Leaving(w, o)
    ensures Leaving(Step(w, DeliverA(i)), o)
  {
    var ack, ps := DeliverASender(w, i);
    hide Inv, Step, Enabled, Defined, SenderState.Absorb, TruePair, SenderState.Ranked, FlaggedBy;
    AbsorbEffect(w.a.snd, ack, ps);
  }

  lemma {:induction false} LeavingRun(w: World, xs: seq<Action>, v: World, o: Word)
    requires Inv(w) && IsRun(w, xs, v) && Leaving(w, o) && forall i :: 0 <= i < |xs| ==> !xs[i].SendAll?
    ensures Leaving(v, o) && Inv(v)
    decreases xs
  {
    hide Inv, Step, Enabled, Defined, Leaving;
    if xs == [] {
    } else {
      LeavingStep(w, xs[0], o);
      StepInv(w, xs[0]);
      LeavingRun(Step(w, xs[0]), xs[1..], v, o);
    }
  }

  /** A write keeps only chunks that are not flagged, and adds only chunks behind the written stream. */
  lemma WriteLeaves(s: SenderState, created: seq<RangeBuf>, o: Word)
    requires StreamInv(s, created) && s.CanSendAll() && o < s.writtenData
    requires o in s.sendBuffer.offsetRecv ==> !s.sendBuffer.offsetRecv[o]
    ensures var t := s.SendAll().0; s.writtenData <= t.writtenData && forall c :: c in t.sendBuffer.data ==> c.off != o
  {
    hide S.SendState.Write, S.SendState.Added, S.SendState.Accepted, S.KeptByOffset, SenderState.Window, Tiles, Among, S.Ascending;
    if |s.sendData| > s.writtenData || s.sendBuffer.data != [] {
      var input, window, lead := s.sendData[s.writtenData..], s.Window().1, S.Lead(s.totalOffset);
      StreamRange(s, created);
      S.WriteKeepsValid(s.sendBuffer, input, window, lead);
      S.WriteFields(s.sendBuffer, input, window, lead);
      S.KeptMembers(s.sendBuffer.data, s.sendBuffer.offsetRecv);
      AddedBeyond(s.sendBuffer, input, window, lead);
    }
  }

  lemma SendAllLeaves(w: World, o: Word)
    requires Inv(w) && Defined(w, SendAll) && Leaving(w, o)
    ensures Absent(Step(w, SendAll), o)
  {
    hide Inv, SenderState.SendAll, SenderState.CanSendAll, StreamInv, TxInv, SafeInv, Counted, Cut;
    InvParts(w);
    WriteLeaves(w.a.snd, w.created, o);
  }

  /** Chunks that are not queued have no flag. */
  lemma NoFlag(w: World, o: Word)
    requires Inv(w) && Absent(w, o)
    ensures Leaving(w, o)
  {
    hide TxInv, SafeInv, LogInv, ToAInv, ToBInv, ReceiverInv, Counted, Tiles, Among, S.Ascending;
    var b := w.a.snd.sendBuffer;
    if o in b.offsetRecv {
      QueuedChunk(b, o);
    }
  }

  /** A chunk that has left the queue never comes back and is never sent again. */
  lemma LeftStep(w: World, x: Action, o: Word)
    requires Inv(w) && Enabled(w, x) && Defined(w, x) && Absent(w, o)
    ensures Absent(Step(w, x), o) && Count(Step(w, x).a.snd.sentPkt, o) == Count(w.a.snd.sentPkt, o)
  {
    hide Inv, ConnState.SendData, ConnState.RecvSlice, Step, Count;
    StepTransmits(w, x);
    if x.SendAll? {
      NoFlag(w, o);
      SendAllLeaves(w, o);
    } else {
      SameQueue(w, x);
    }
    var b := w.a.snd.sendBuffer;
    if Transmits(w, x) {
      assert b.data[b.pos] in b.data;
      CountSnoc(w.a.snd.sentPkt, b.data[b.pos].off, o);
    }
  }

  lemma SameQueue(w: World, x: Action)
    requires Inv(w) && Enabled(w, x) && Defined(w, x) && !x.SendAll?
    ensures var s, t := w.a.snd, Step(w, x).a.snd; t.sendBuffer.data == s.sendBuffer.data && t.writtenData == s.writtenData
  {
    hide Inv, ConnState.SendData, ConnState.RecvSlice;
    match x
    case SendA(out) =>
      SendABuffer(w, out);
      SendAWritten(w, out);
    case DeliverA(i) => DeliverAFrame(w, i);
    case _ =>
  }

  lemma {:induction false} LeftRun(w: World, xs: seq<Action>, v: World, o: Word)
    requires Inv(w) && IsRun(w, xs, v) && Absent(w, o)
    ensures Absent(v, o) && Count(v.a.snd.sentPkt, o) == Count(w.a.snd.sentPkt, o)
    decreases xs
  {
    hide Inv, Step, Enabled, Defined, Absent, Count;
    if xs == [] {
    } else {
      LeftStep(w, xs[0], o);
      StepInv(w, xs[0]);
      LeftRun(Step(w, xs[0]), xs[1..], v, o);
    }
  }

  /** Once an acknowledgement that reports a chunk as received is delivered, the chunk is gone from the
      queue after the next `send_all`, for good, and is not transmitted again. */
  lemma ReceivedLeaves(stream: seq<Byte>, ranking: Ranking, xs: seq<Action>, w: World, i: nat, o: Word,
                       ys: seq<Action>, u: World, zs: seq<Action>, v: World)
    requires Reaches(stream, ranking, xs, w) && i < |w.toA| && Acknowledges(w.toA[i], o) && Defined(w, DeliverA(i))
    requires IsRun(Step(w, DeliverA(i)), ys, u) && forall k :: 0 <= k < |ys| ==> !ys[k].SendAll?
    requires Defined(u, SendAll) && IsRun(Step(u, SendAll), zs, v)
    ensures forall c :: c in v.a.snd.sendBuffer.data ==> c.off != o
    ensures Count(v.a.snd.sentPkt, o) == Count(u.a.snd.sentPkt, o)
  {
    hide Inv, IsRun, Step, Acknowledges, Count;
    ReachesInv(stream, ranking, xs, w);
    ReportFlags(w, i, o);
    StepInv(w, DeliverA(i));
    LeavingRun(Step(w, DeliverA(i)), ys, u, o);
    SendAllLeaves(u, o);
    StepInv(u, SendAll);
    StepTransmits(u, SendAll);
    LeftRun(Step(u, SendAll), zs, v, o);
  }

  // ------------------------------------------------------------ packet numbers and priorities

  /** The packets of a type in a log. */
  ghost function Packets(log: seq<Datagram>, ty: Type): nat {
    if log == [] then 0 else Packets(log[..|log| - 1], ty) + if log[|log| - 1].hdr.ty == ty then 1 else 0
  }

  /** Packets of a type are numbered from 0 in the order sent, in `u64` arithmetic. */
  ghost predicate Numbered(log: seq<Datagram>, ty: Type) {
    log != [] ==>
      var k := |log| - 1;
      Numbered(log[..k], ty) && (log[k].hdr.ty == ty ==> log[k].hdr.pktNum == Packets(log[..k], ty) % U64)
  }

  ghost predicate Counter(log: seq<Datagram>, ty: Type, next: Word) {
    Numbered(log, ty) && next == Packets(log, ty) % U64
  }

  ghost predicate NumbersInv(w: World) {
    Counter(w.toB, Application, w.a.snd.nextPktNum) && Counter(w.toB, ElictAck, w.a.snd.nextElictNum)
  }

  lemma CounterSnoc(log: seq<Datagram>, ty: Type, next: Word, d: Datagram)
    requires Counter(log, ty, next) && (d.hdr.ty == ty ==> d.hdr.pktNum == next)
    ensures Counter(log + [d], ty, if d.hdr.ty == ty then Next(next) else next)
  {
    assert (log + [d])[..|log|] == log;
    NextCount(Packets(log, ty));
  }

  lemma NextCount(n: nat)
    ensures Next(n % U64) == (n + 1) % U64
  {
  }

  lemma SendANumbers(w: World, out: seq<Byte>)
    requires Inv(w) && Enabled(w, SendA(out)) && Defined(w, SendA(out)) && NumbersInv(w)
    ensures NumbersInv(Step(w, SendA(out)))
  {
    hide Inv, StreamInv, TxInv, SafeInv, Step, Defined, Counter, SenderState.SendElictAck, SenderState.SendApplication,
      SenderState.CanSend, SenderState.Charge, ConnState.WritePktType, S.SendState.Emit;
    InvParts(w);
    SendASender(w, out);
    var s, v, tail, ty := w.a.snd, Step(w, SendA(out)), out[HEADER_LENGTH..], w.a.WritePktType().1;
    if ty == Ok(Application) {
      if Sendable(s.sendBuffer) {
        TransmitFields(s, w.created, tail);
        LogGrows(w, v, s.SendApplication(tail).result.value);
      } else {
        NothingSent(s, w.created, w.b.rcv.recvDic, tail);
      }
    } else if ty == Ok(ElictAck) {
      ElictDue(w.a);
      ElictBody(s, tail);
      ElictFields(s, tail);
      LogGrows(w, v, s.(sentCount := 0).SendElictAck(tail).result.value);
    } else if v.toB != w.toB {
      LogGrows(w, v, HELLO);
    }
  }

  lemma ElictDue(a: ConnState)
    requires a.WritePktType().1 == Ok(ElictAck)
    ensures a.snd.stopFlag || (a.snd.sentCount % ELICT_FLAG == 0 && a.snd.sentCount > 0)
  {
  }

  lemma LogGrows(w: World, v: World, d: Datagram)
    requires NumbersInv(w) && v.toB == w.toB + [d]
    requires d.hdr.ty == Application ==> d.hdr.pktNum == w.a.snd.nextPktNum
    requires d.hdr.ty == ElictAck ==> d.hdr.pktNum == w.a.snd.nextElictNum
    requires v.a.snd.nextPktNum == if d.hdr.ty == Application then Next(w.a.snd.nextPktNum) else w.a.snd.nextPktNum
    requires v.a.snd.nextElictNum == if d.hdr.ty == ElictAck then Next(w.a.snd.nextElictNum) else w.a.snd.nextElictNum
    ensures NumbersInv(v)
  {
    hide Counter, Next;
    CounterSnoc(w.toB, Application, w.a.snd.nextPktNum, d);
    CounterSnoc(w.toB, ElictAck, w.a.snd.nextElictNum, d);
  }

  lemma NumbersStep(w: World, x: Action)
    requires Inv(w) && Enabled(w, x) && Defined(w, x) && NumbersInv(w)
    ensures NumbersInv(Step(w, x))
  {
    hide Inv, Counter, ConnState.SendData, ConnState.RecvSlice, S.SendState.Write, SenderState.Window;
    match x
    case SendA(out) => SendANumbers(w, out);
    case DeliverA(i) => DeliverAFrame(w, i);
    case _ =>
  }

  /** The receiver records the priority of the block for every chunk that arrived. */
  ghost predicate PrioritiesInv(w: World) {
    forall o :: o in w.b.rcv.recvDic ==> w.b.rcv.recvDic[o] == Prio(w.a.snd.ranking, o)
  }

  lemma DeliverBPriorities(w: World, i: nat)
    requires Inv(w) && Enabled(w, DeliverB(i)) && Defined(w, DeliverB(i)) && PrioritiesInv(w)
    ensures PrioritiesInv(Step(w, DeliverB(i)))
  {
    hide StreamInv, TxInv, SafeInv, LogInv, Counted, ReceiverInv, ToAInv, ConnState.RecvSlice, ConnState.CanReceive, Wire,
      ReceiverState.CheckLoss, DecodeWords, Prio;
    var d := w.toB[i];
    assert d in w.toB && Honest(d, w.created, w.a.snd.sentPkt, w.a.snd.ranking);
    PassiveTakes(w.b, d);
  }

  lemma PrioritiesStep(w: World, x: Action)
    requires Inv(w) && Enabled(w, x) && Defined(w, x) && PrioritiesInv(w)
    ensures PrioritiesInv(Step(w, x))
  {
    hide Inv, Prio, ConnState.SendData, ConnState.RecvSlice, Step;
    KeepsInput(w, x);
    if x.DeliverB? {
      DeliverBPriorities(w, x.i);
    } else {
      SameRecords(w, x);
    }
  }

  lemma SameRecords(w: World, x: Action)
    requires Inv(w) && Enabled(w, x) && Defined(w, x) && !x.DeliverB?
    ensures Step(w, x).b.rcv.recvDic == w.b.rcv.recvDic
  {
    hide StreamInv, TxInv, SafeInv, ToBInv, ToAInv, LogInv, Counted, ReceiverInv, ConnState.SendData, ConnState.CanSend,
      ConnState.RecvSlice, ConnState.CanReceive;
    match x
    case SendB(out, order) => PassiveSends(w.b, out, order);
    case _ =>
  }

  lemma {:induction false} RecordsRun(w: World, xs: seq<Action>, v: World)
    requires Inv(w) && IsRun(w, xs, v) && NumbersInv(w) && PrioritiesInv(w)
    ensures NumbersInv(v) && PrioritiesInv(v)
    decreases xs
  {
    hide Inv, Step, Enabled, Defined, NumbersInv, PrioritiesInv;
    if xs == [] {
    } else {
      NumbersStep(w, xs[0]);
      PrioritiesStep(w, xs[0]);
      StepInv(w, xs[0]);
      RecordsRun(Step(w, xs[0]), xs[1..], v);
    }
  }

  /** In every run data packets and solicitations are each numbered 0, 1, 2, ... in the order sent, and the
      receiver has recorded the block's priority with every chunk that arrived. */
  lemma Records(stream: seq<Byte>, ranking: Ranking, xs: seq<Action>, w: World, k: nat)
    requires Reaches(stream, ranking, xs, w) && k < |w.toB| && (w.toB[k].hdr.ty == Application || w.toB[k].hdr.ty == ElictAck)
    ensures w.toB[k].hdr.pktNum == Packets(w.toB[..k], w.toB[k].hdr.ty) % U64
    ensures forall o :: o in w.b.rcv.recvDic ==> w.b.rcv.recvDic[o] == Prio(ranking, o)
  {
    hide Inv, IsRun, Prio, Packets;
    ReachesInv(stream, ranking, xs, w);
    InitInv(stream, ranking);
    NothingRecorded(stream, ranking);
    RecordsRun(Init(stream, ranking), xs, w);
    NumberAt(w.toB, w.toB[k].hdr.ty, k);
  }

  lemma NothingRecorded(stream: seq<Byte>, ranking: Ranking)
    ensures NumbersInv(Init(stream, ranking)) && PrioritiesInv(Init(stream, ranking))
  {
  }

  lemma {:induction false} NumberAt(log: seq<Datagram>, ty: Type, k: nat)
    requires Numbered(log, ty) && k < |log| && log[k].hdr.ty == ty
    ensures log[k].hdr.pktNum == Packets(log[..k], ty) % U64
  {
    if k == |log| - 1 {
    } else {
      NumberAt(log[..|log| - 1], ty, k);
      assert log[..|log| - 1][..k] == log[..k];
    }
  }
}
