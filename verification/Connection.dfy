/** One endpoint: packet selection, sending, receiving and acknowledgement processing. */
module Connection {
  import opened Bytes
  import opened Packet
  import opened Priority
  import opened RangeBuffer
  import Recovery
  import S = SendBuffer
  import R = RecvBuffer

  const ELICT_FLAG: nat := 8
  const CONGESTION_THRESHOLD: real := 0.01

  /** One entry of an acknowledgement: an offset and 0 for received, otherwise lost. */
  datatype Pair = Pair(off: Word, lost: Word)

  function DecodePairs(ws: seq<Word>): (ps: seq<Pair>)
    requires |ws| % 2 == 0
    ensures |ws| == 2 * |ps|
  {
    if ws == [] then [] else [Pair(ws[0], ws[1])] + DecodePairs(ws[2..])
  }

  function EncodePairs(ps: seq<Pair>): (ws: seq<Word>)
    ensures |ws| == 2 * |ps|
  {
    if ps == [] then [] else [ps[0].off, ps[0].lost] + EncodePairs(ps[1..])
  }

  lemma {:induction false} DecodeEncodePairs(ps: seq<Pair>)
    ensures DecodePairs(EncodePairs(ps)) == ps
  {
    if ps == [] {
    } else {
      DecodeEncodePairs(ps[1..]);
      assert EncodePairs(ps)[2..] == EncodePairs(ps[1..]);
    }
  }

  /** An acknowledgement body is one word and a whole number of pairs. */
  function AckWords(body: seq<Byte>): (ws: seq<Word>)
    requires |body| % 16 == 8
    ensures |ws| % 2 == 1 && |body| / 16 == (|ws| - 1) / 2
  {
    assert |body| == 16 * (|body| / 16) + 8;
    DecodeWords(body)
  }

  function AckPairs(body: seq<Byte>): (ps: seq<Pair>)
    requires |body| % 16 == 8
    ensures |ps| == |body| / 16
  {
    DecodePairs(AckWords(body)[1..])
  }

  function Next(w: Word): Word {
    if w + 1 == U64 then 0 else w + 1
  }

  // ------------------------------------------------------------ the sending half

  /** What one transmission attempt leaves behind and hands out. */
  datatype Sent<S> = Sent(state: S, result: Result<Datagram>)

  datatype SenderState = SenderState(
    stopFlag: bool, stopAck: bool, sentCount: nat, sentNumber: nat, highPriority: nat,
    sendBuffer: S.SendState, recovery: Recovery.RecoveryState, writtenData: nat, totalOffset: nat,
    sentPkt: seq<Word>, ackPoint: nat, sentDic: map<Word, Word>, maxOff: Word,
    nextPktNum: Word, nextElictNum: Word, ranking: Ranking, sendData: seq<Byte>)
  {
    predicate IsStopped() {
      stopFlag && stopAck
    }

    /** The stream fits the source's `u64` offsets. */
    predicate InRange() {
      && writtenData <= |sendData| < U64
      && sendBuffer.off + (|sendData| - writtenData) < U64
      && ackPoint <= |sentPkt|
    }

    // -------------------------------------------------------- starting a round

    predicate RollsBack() {
      if sentNumber == 0 then highPriority > 0
      else highPriority as real / sentNumber as real > CONGESTION_THRESHOLD
    }

    function Window(): (Recovery.RecoveryState, nat) {
      if RollsBack() then recovery.Rollback() else recovery.Cwnd()
    }

    predicate CanSendAll() {
      InRange() && sendBuffer.CanDrop()
    }

    function SendAll(): (SenderState, bool)
      requires CanSendAll()
    {
      var more := |sendData| > writtenData || sendBuffer.data != [];
      ((if more then Write() else this).(stopFlag := false, stopAck := false), more)
    }

    function Write(): SenderState
      requires CanSendAll()
    {
      var (recovery', window) := Window();
      var (buf, n) := sendBuffer.Write(sendData[writtenData..], window, S.Lead(totalOffset));
      this.(highPriority := 0, sentNumber := 0, recovery := recovery', sendBuffer := buf,
            writtenData := writtenData + n, totalOffset := totalOffset + n)
    }

    // -------------------------------------------------------- sending one packet

    /** The next chunk to go out, if any, has a norm. */
    predicate CanSend() {
      InRange() && (sendBuffer.OffFront() < writtenData ==> ranking.Has(sendBuffer.OffFront()))
    }

    /** The body is whatever the buffer holds in the announced length, which is hard-coded to 64
        unless the round has stopped. */
    function SendElictAck(out: seq<Byte>): Sent<SenderState>
      requires ackPoint <= |sentPkt|
    {
      var pending := EncodeWords(sentPkt[ackPoint..]);
      var s := this.(nextElictNum := Next(nextElictNum));
      if |out| < |pending| then Sent(s, Err(BufferTooShort))
      else
        var length := if stopFlag then |pending| else 64;
        var written := Splice(out, 0, pending);
        Sent(s.(ackPoint := |sentPkt|, stopAck := stopAck || stopFlag),
             Ok(Datagram(Header(ElictAck, nextElictNum, 0, 0, length % U64), written[..Min(length, |written|)])))
    }

    function SendApplication(out: seq<Byte>): Sent<SenderState>
      requires CanSend()
    {
      var e := sendBuffer.Emit(out);
      if e.outOff >= writtenData then Sent(this.(sendBuffer := e.buf), Err(Done))
      else
        var off: Word := e.outOff;
        var priority := ranking.Priority(off);
        Sent(this.(sendBuffer := e.buf, sentCount := sentCount + 1, sentNumber := sentNumber + 1,
                   nextPktNum := Next(nextPktNum), sentDic := Charge(off, priority),
                   stopFlag := stopFlag || e.stop, sentPkt := sentPkt + [off]),
             Ok(Datagram(Header(Application, nextPktNum, priority, off, e.outLen % U64), e.out[..e.outLen])))
    }

    /** The budget table after one more transmission of the chunk at `off`. */
    function Charge(off: Word, priority: Byte): map<Word, Word> {
      if off in sentDic then sentDic[off := WrappingSub(sentDic[off], 1)] else sentDic[off := priority]
    }

    // -------------------------------------------------------- processing an acknowledgement

    /** Every reported offset has a norm. */
    predicate Ranked(ps: seq<Pair>) {
      forall p :: p in ps ==> ranking.Has(p.off)
    }

    predicate CanProcess(body: seq<Byte>) {
      |body| % 16 == 8 && Ranked(AckPairs(body))
    }

    function ReportOf(p: Pair): Recovery.Report
      requires ranking.Has(p.off)
    {
      if p.lost == 0 then 0 else ranking.Priority(p.off)
    }

    function Reports(ps: seq<Pair>): (rs: seq<Recovery.Report>)
      requires Ranked(ps)
      ensures |rs| == |ps|
    {
      if ps == [] then [] else Reports(ps[..|ps| - 1]) + [ReportOf(ps[|ps| - 1])]
    }

    /** Whether a report on `p.off` flags the chunk: it arrived, or its budget is spent. */
    predicate Drops(p: Pair) {
      p.lost == 0 || (p.off in sentDic && sentDic[p.off] == 0)
    }

    function ProcessPair(p: Pair): SenderState
      requires ranking.Has(p.off)
    {
      var high := if ReportOf(p) != 0 && ranking.Priority(p.off) == 3 then 1 else 0;
      this.(sendBuffer := if Drops(p) then sendBuffer.AckAndDrop(p.off) else sendBuffer,
            highPriority := highPriority + high)
    }

    function ProcessPairs(ps: seq<Pair>): (s: SenderState)
      requires Ranked(ps)
      ensures s.ranking == ranking && s.sentDic == sentDic
    {
      if ps == [] then this else ProcessPairs(ps[..|ps| - 1]).ProcessPair(ps[|ps| - 1])
    }

    /** The sender after the reports `ps`, sent along with the highest offset `ack`. */
    function Absorb(ack: Word, ps: seq<Pair>): SenderState
      requires Ranked(ps)
    {
      var s := ProcessPairs(ps);
      s.(maxOff := if ack > maxOff then ack else maxOff,
         recovery := recovery.UpdateWin(Recovery.Weight(Reports(ps)), |ps| as real))
    }

    /** The report count of the window update is computed from the body length. */
    function ProcessAck(body: seq<Byte>): SenderState
      requires CanProcess(body)
    {
      Absorb(AckWords(body)[0], AckPairs(body))
    }
  }

  // ------------------------------------------------------------ the receiving half

  datatype ReceiverState = ReceiverState(
    recBuffer: R.RecvState, recvDic: map<Word, Byte>, recvHashmap: map<Word, Word>, sendNum: Word)
  {
    /** The pending reports after a solicitation for `offs`. */
    function CheckLoss(offs: seq<Word>): map<Word, Word> {
      if offs == [] then recvHashmap
      else
        var k := |offs| - 1;
        CheckLoss(offs[..k])[offs[k] := if offs[k] in recvDic then 0 else 1]
    }

    function Solicited(pktNum: Word, offs: seq<Word>): ReceiverState {
      this.(sendNum := pktNum, recvHashmap := CheckLoss(offs))
    }

    function Store(off: Word, priority: Byte, body: seq<Byte>): ReceiverState {
      this.(recBuffer := recBuffer.Write(body, off), recvDic := recvDic[off := priority])
    }

    /** `order` is the order in which the hash map of pending reports happens to be iterated. */
    function SendAck(room: nat, order: seq<Pair>): Sent<ReceiverState> {
      var body := AckBody(recBuffer.maxRecvOff % U64, order);
      if room < |body| then Sent(this, Err(BufferTooShort))
      else Sent(this.(recvHashmap := map[]), Ok(Datagram(Header(ACK, sendNum, 0, 0, (|recvHashmap| * 16 + 8) % U64), body)))
    }
  }

  /** A list of all entries of the map, each once. */
  ghost predicate IsOrdering(order: seq<Pair>, m: map<Word, Word>) {
    && |order| == |m|
    && (forall p :: p in order ==> p.off in m && m[p.off] == p.lost)
    && (forall i, j :: 0 <= i < j < |order| ==> order[i].off != order[j].off)
  }

  /** The body of an acknowledgement: the highest offset, then the reports in some order. */
  function AckBody(ack: Word, ps: seq<Pair>): seq<Byte> {
    EncodeWords([ack] + EncodePairs(ps))
  }

  // ------------------------------------------------------------ the endpoint

  const HELLO := Datagram(Header(Handshake, 0, 0, 0, 0), [])
  const GOODBYE := Datagram(Header(Type.Stop, 0, 0, 0, 0), [])

  datatype ConnState = ConnState(
    isServer: bool, rttZero: bool, handshakeCompleted: bool, handshakeConfirmed: bool,
    recvFlag: bool, feedBack: bool, recvCount: nat, snd: SenderState, rcv: ReceiverState)
  {
    function WritePktType(): (ConnState, Result<Type>) {
      if rttZero && isServer then (this.(handshakeCompleted := true), Ok(Handshake))
      else if !handshakeConfirmed && !isServer then (this.(handshakeConfirmed := true), Ok(Handshake))
      else if (snd.sentCount % ELICT_FLAG == 0 && snd.sentCount > 0) || snd.stopFlag then
        (this.(snd := snd.(sentCount := 0)), Ok(ElictAck))
      else if recvFlag then (this.(recvFlag := false), Ok(ACK))
      else if !rttZero then (this, Ok(Application))
      else if snd.sendBuffer.data == [] then (this, Ok(Stop))
      else (this, Err(Done))
    }

    /** The buffer is empty or holds at least a header, and a chunk about to go out has a norm. */
    predicate CanSend(out: seq<Byte>) {
      && snd.InRange() && (out == [] || |out| >= HEADER_LENGTH)
      && (out != [] && WritePktType().1 == Ok(Application) ==> snd.CanSend())
    }

    function SendData(out: seq<Byte>, order: seq<Pair>): Sent<ConnState>
      requires CanSend(out)
    {
      if out == [] then Sent(this, Err(BufferTooShort))
      else
        var (c, ty) := WritePktType();
        if ty.Err? then Sent(c, Err(ty.error)) else c.SendPacket(ty.value, out[HEADER_LENGTH..], order)
    }

    predicate CanSendPacket(ty: Type) {
      snd.ackPoint <= |snd.sentPkt| && (ty == Application ==> snd.CanSend())
    }

    /** A packet of the selected type; `tail` is the buffer behind the header. */
    function FillPacket(ty: Type, tail: seq<Byte>, order: seq<Pair>): Sent<ConnState>
      requires CanSendPacket(ty)
    {
      match ty
      case Handshake =>
        Sent(if isServer then this else this.(feedBack := false), Ok(HELLO))
      case ElictAck =>
        var r := snd.SendElictAck(tail);
        Sent(this.(snd := r.state), r.result)
      case ACK =>
        var r := rcv.SendAck(|tail|, order);
        Sent(this.(feedBack := false, rcv := r.state), r.result)
      case Application =>
        var r := snd.SendApplication(tail);
        Sent(this.(snd := r.state), r.result)
      case _ => Sent(this, Ok(GOODBYE))
    }

    function SendPacket(ty: Type, tail: seq<Byte>, order: seq<Pair>): Sent<ConnState>
      requires CanSendPacket(ty)
    {
      var r := FillPacket(ty, tail, order);
      if ty == Handshake || ty == ACK || ty == Application then r.state.Finish(r.result) else r
    }

    /** The check every packet but a solicitation or a stop passes on its way out. */
    function Finish(r: Result<Datagram>): Sent<ConnState> {
      Sent(this, if r.Ok? && snd.IsStopped() then Err(Done) else r)
    }

    /** Bodies the slice arithmetic of the receive path accepts, and offsets that have a norm. */
    predicate CanReceive(buf: seq<Byte>) {
      |buf| >= HEADER_LENGTH ==> CanTake(TypeOf(buf[0]), buf[HEADER_LENGTH..])
    }

    predicate CanTake(ty: Type, body: seq<Byte>) {
      && (ty == ElictAck ==> |body| % 8 == 0)
      && (ty == ACK && isServer ==> snd.CanProcess(body))
    }

    function RecvSlice(buf: seq<Byte>): (ConnState, Result<nat>)
      requires CanReceive(buf)
    {
      if buf == [] then (this, Err(BufferTooShort))
      else
        match ParseHeader(buf)
        case Err(e) => (this.(recvCount := recvCount + 1), Err(e))
        case Ok(hdr) => Receive(hdr, buf[HEADER_LENGTH..])
    }

    function Receive(hdr: Header, body: seq<Byte>): (ConnState, Result<nat>)
      requires CanTake(hdr.ty, body)
    {
      var c := this.(recvCount := recvCount + 1);
      match hdr.ty
      case Handshake =>
        (if isServer then c.(rttZero := false, handshakeCompleted := true)
         else c.(handshakeConfirmed := false, feedBack := true), Ok(0))
      case ACK => (if isServer then c.(snd := snd.ProcessAck(body)) else c, Ok(0))
      case ElictAck =>
        (c.(recvFlag := true, feedBack := true, rcv := rcv.Solicited(hdr.pktNum, DecodeWords(body))), Ok(0))
      case Application =>
        (c.(recvCount := recvCount + 2, rcv := rcv.Store(hdr.offset, hdr.priority, body)), Ok(hdr.pktLength))
      case Stop => (c, Err(Stopped))
      case _ => (c, Ok(0))
    }
  }

  /** What `send_data` does, by the packet type it selects. */
  lemma SendDataByType(c: ConnState, out: seq<Byte>, order: seq<Pair>)
    requires c.CanSend(out) && out != []
    ensures var ty, tail, s := c.WritePktType().1, out[HEADER_LENGTH..], c.SendData(out, order);
      && (ty == Ok(ElictAck) ==>
            var r := c.snd.(sentCount := 0).SendElictAck(tail);
            s == Sent(c.(snd := r.state), r.result))
      && (ty == Ok(Application) ==>
            var r := c.snd.SendApplication(tail);
            s.state == c.(snd := r.state) && s.result == (if r.result.Ok? && r.state.IsStopped() then Err(Done) else r.result))
      && (ty == Ok(ACK) ==>
            var r := c.rcv.SendAck(|tail|, order);
            && s.state == c.(recvFlag := false, feedBack := false, rcv := r.state)
            && s.result == (if r.result.Ok? && c.snd.IsStopped() then Err(Done) else r.result))
      && (ty == Ok(Handshake) ==>
            && s.state == c.WritePktType().0.(feedBack := c.feedBack && c.isServer)
            && s.state.snd == c.snd && s.state.rcv == c.rcv && s.state.isServer == c.isServer
            && s.state.rttZero == c.rttZero && s.state.recvFlag == c.recvFlag
            && s.result == (if c.snd.IsStopped() then Err(Done) else Ok(HELLO)))
      && (ty == Ok(Type.Stop) ==> s == Sent(c, Ok(GOODBYE)))
      && (ty.Err? ==> s == Sent(c, Err(ty.error)))
  {
    hide SenderState.SendElictAck, SenderState.SendApplication, ReceiverState.SendAck, SenderState.CanSend;
  }

  /** Which packet type is due, and that choosing it resets the flag or counter that made it due. */
  lemma PktTypeTable(c: ConnState)
    ensures var (d, ty) := c.WritePktType();
      var greet := if c.isServer then c.rttZero else !c.handshakeConfirmed;
      var ask := !greet && (c.snd.stopFlag || (c.snd.sentCount > 0 && c.snd.sentCount % 8 == 0));
      && (ty == Ok(Handshake) <==> greet)
      && (ty == Ok(ElictAck) <==> ask)
      && (ty == Ok(ACK) <==> !greet && !ask && c.recvFlag)
      && (ty == Ok(Application) <==> !greet && !ask && !c.recvFlag && !c.rttZero)
      && (ty == Ok(Type.Stop) <==> !greet && !ask && !c.recvFlag && c.rttZero && c.snd.sendBuffer.data == [])
      && (ty == Err(Done) <==> !greet && !ask && !c.recvFlag && c.rttZero && c.snd.sendBuffer.data != [])
      && d == c.(handshakeCompleted := c.handshakeCompleted || (greet && c.isServer),
                 handshakeConfirmed := c.handshakeConfirmed || (greet && !c.isServer),
                 recvFlag := c.recvFlag && ty != Ok(ACK),
                 snd := c.snd.(sentCount := if ask then 0 else c.snd.sentCount))
  {
  }

  /** What a datagram changes, field by field, and what is answered. */
  lemma ReceiveTable(c: ConnState, hdr: Header, body: seq<Byte>)
    requires c.CanTake(hdr.ty, body)
    ensures var (d, answer) := c.Receive(hdr, body);
      var hello, asked, data := hdr.ty == Handshake, hdr.ty == ElictAck, hdr.ty == Application;
      && d.isServer == c.isServer && d.recvCount == c.recvCount + (if data then 2 else 1)
      && (d.rttZero <==> c.rttZero && !(hello && c.isServer))
      && (d.handshakeCompleted <==> c.handshakeCompleted || (hello && c.isServer))
      && (d.handshakeConfirmed <==> c.handshakeConfirmed && !(hello && !c.isServer))
      && (d.feedBack <==> c.feedBack || asked || (hello && !c.isServer))
      && (d.recvFlag <==> c.recvFlag || asked)
      && (!(hdr.ty == ACK && c.isServer) ==> d.snd == c.snd)
      && d.rcv.recvDic == (if data then c.rcv.recvDic[hdr.offset := hdr.priority] else c.rcv.recvDic)
      && d.rcv.sendNum == (if asked then hdr.pktNum else c.rcv.sendNum)
      && (!data ==> d.rcv.recBuffer == c.rcv.recBuffer) && (!asked ==> d.rcv.recvHashmap == c.rcv.recvHashmap)
      && answer == if hdr.ty == Type.Stop then Err(Stopped) else Ok(if data then hdr.pktLength else 0)
  {
    hide SenderState.ProcessAck, SenderState.CanProcess, ReceiverState.CheckLoss, R.RecvState.Write, DecodeWords;
  }

  /** Buffers too short for a header: an empty one is not even counted. */
  lemma RecvShort(c: ConnState, buf: seq<Byte>)
    requires |buf| < HEADER_LENGTH
    ensures c.RecvSlice(buf) == (if buf == [] then c else c.(recvCount := c.recvCount + 1), Err(BufferTooShort))
  {
  }

  /** A solicitation that does not fit uses up a packet number and nothing else. */
  lemma ElictTooShort(s: SenderState, out: seq<Byte>)
    requires s.ackPoint <= |s.sentPkt| && |out| < 8 * (|s.sentPkt| - s.ackPoint)
    ensures s.SendElictAck(out) == Sent(s.(nextElictNum := Next(s.nextElictNum)), Err(BufferTooShort))
  {
  }

  // ------------------------------------------------------------ starting a round

  lemma RatioExceeds(h: nat, n: nat)
    requires n > 0
    ensures h as real / n as real > CONGESTION_THRESHOLD <==> 100 * h > n
  {
    var q := h as real / n as real;
    assert q * n as real == h as real;
    if q > 0.01 {
      assert (q - 0.01) * n as real > 0.0;
      assert (q - 0.01) * n as real == q * n as real - 0.01 * n as real;
    } else {
      assert (0.01 - q) * n as real >= 0.0;
      assert (0.01 - q) * n as real == 0.01 * n as real - q * n as real;
    }
  }

  /** The window a round is written with. If more than one in a hundred of the packets of the last round
      was a lost one of high priority, it is the largest remembered window, or 9600 without one, and the
      accumulators stay; otherwise it is twice the gains minus the losses, at least 9600, and they are
      cleared. Both counters start again. */
  lemma SendAllWindow(s: SenderState)
    requires s.CanSendAll() && (|s.sendData| > s.writtenData || s.sendBuffer.data != [])
    ensures var t := s.SendAll().0; var window, was, now := t.sendBuffer.maxData, s.recovery, t.recovery;
      && t.highPriority == 0 && t.sentNumber == 0 && now.congestionWindow == window && now.rollBack == was.rollBack
      && (if 100 * s.highPriority > s.sentNumber then
            && now.increWin == was.increWin && now.decreWin == was.decreWin
            && (if was.former == {} then window == 9600 && now.former == {}
                else window in was.former && (forall f :: f in was.former ==> f <= window) && now.former == was.former - {window})
          else
            var raw := 2 * was.increWin - was.decreWin;
            && window == (if raw >= 9600 then raw else 9600) && now.increWin == 0 && now.decreWin == 0
            && now.former == if was.rollBack then was.former else was.former + {if raw > 0 then raw else 0})
  {
    hide S.SendState.Write, S.SendState.Added, S.SendState.RecvAndDrop, S.SendState.Accepted, S.Lead, S.Mark, S.TotalBytes;
    S.WriteFields(s.sendBuffer, s.sendData[s.writtenData..], s.Window().1, S.Lead(s.totalOffset));
    if s.sentNumber > 0 {
      RatioExceeds(s.highPriority, s.sentNumber);
    }
    Recovery.RollbackIs(s.recovery);
  }

  /** `send_all` answers whether there is stream left to write or a chunk left to send; if there is neither
      it only clears the stop flags. */
  lemma SendAllAnswers(s: SenderState)
    requires s.CanSendAll()
    ensures var (t, more) := s.SendAll();
      && (more <==> |s.sendData| > s.writtenData || s.sendBuffer.data != [])
      && !t.stopFlag && !t.stopAck
      && (!more ==> t == s.(stopFlag := false, stopAck := false))
      && t.sentPkt == s.sentPkt && t.ackPoint == s.ackPoint && t.sentDic == s.sentDic && t.sentCount == s.sentCount
      && t.nextPktNum == s.nextPktNum && t.nextElictNum == s.nextElictNum && t.maxOff == s.maxOff
  {
    hide S.SendState.Write, SenderState.Window;
  }

  // ------------------------------------------------------------ solicitations

  /** What a solicitation makes the receiver report: on each offset asked about 0 if and only if it has
      arrived, otherwise 1; on every other offset what it was going to report. */
  lemma {:induction false} CheckLossAnswers(r: ReceiverState, offs: seq<Word>)
    ensures var m := r.CheckLoss(offs);
      && (forall o :: o in m <==> o in r.recvHashmap || o in offs)
      && (forall o :: o in offs ==> m[o] == if o in r.recvDic then 0 else 1)
      && (forall o :: o in m && o !in offs ==> m[o] == r.recvHashmap[o])
  {
    if offs == [] {
    } else {
      var k := |offs| - 1;
      CheckLossAnswers(r, offs[..k]);
      assert offs == offs[..k] + [offs[k]];
    }
  }

  // ------------------------------------------------------------ acknowledgement bodies

  /** The encoded reports are read back one for one, and the length says how many there are. */
  lemma AckBodyRoundTrip(ack: Word, ps: seq<Pair>)
    ensures var body := AckBody(ack, ps);
      && |body| == 8 + 16 * |ps| && |body| % 16 == 8 && |body| / 16 == |ps|
      && AckWords(body)[0] == ack && AckPairs(body) == ps
  {
    var ws := [ack] + EncodePairs(ps);
    DecodeEncodeWords(ws);
    DecodeEncodePairs(ps);
    assert ws[1..] == EncodePairs(ps);
  }

  /** The announced length of an acknowledgement is the length of its body, and the body carries
      exactly the pending reports, whatever order they were iterated in. */
  lemma AckAnnounced(r: ReceiverState, room: nat, order: seq<Pair>)
    requires IsOrdering(order, r.recvHashmap) && room < U64
    ensures var s := r.SendAck(room, order);
      && (s.result.Ok? <==> 8 + 16 * |r.recvHashmap| <= room)
      && (s.result.Ok? ==>
            var d := s.result.value;
            && d.hdr.pktLength == |d.body| && |d.body| % 16 == 8 && AckPairs(d.body) == order
            && d.hdr.ty == ACK && d.hdr.pktNum == r.sendNum && AckWords(d.body)[0] == r.recBuffer.maxRecvOff % U64
            && s.state == r.(recvHashmap := map[]))
      && (s.result.Err? ==> s.state == r)
  {
    AckBodyRoundTrip(r.recBuffer.maxRecvOff % U64, order);
  }

  ghost function Sum(ps: seq<Pair>, f: Pair -> real): real {
    if ps == [] then 0.0 else Sum(ps[..|ps| - 1], f) + f(ps[|ps| - 1])
  }

  lemma {:induction false} SumRemove(a: seq<Pair>, x: Pair, b: seq<Pair>, f: Pair -> real)
    ensures Sum(a + [x] + b, f) == Sum(a + b, f) + f(x)
  {
    var whole := a + [x] + b;
    if b == [] {
      assert whole[..|whole| - 1] == a && a + b == a;
    } else {
      var b', y := b[..|b| - 1], b[|b| - 1];
      assert whole[..|whole| - 1] == a + [x] + b' && whole[|whole| - 1] == y;
      assert (a + b)[..|a + b| - 1] == a + b' && (a + b)[|a + b| - 1] == y;
      SumRemove(a, x, b', f);
    }
  }

  lemma RemoveMember(m: multiset<Pair>, a: seq<Pair>, x: Pair, b: seq<Pair>)
    requires m + multiset{x} == multiset(a + [x] + b)
    ensures m == multiset(a + b)
  {
    assert multiset(a + [x] + b) == multiset(a + b) + multiset{x};
    assert m == (m + multiset{x}) - multiset{x};
  }

  lemma {:induction false} SumPermutes(ps: seq<Pair>, qs: seq<Pair>, f: Pair -> real)
    requires multiset(ps) == multiset(qs)
    ensures Sum(ps, f) == Sum(qs, f)
  {
    if ps == [] {
      assert |multiset(qs)| == 0;
    } else {
      var k := |ps| - 1;
      var x := ps[k];
      assert ps == ps[..k] + [x];
      assert x in multiset(qs);
      var i :| 0 <= i < |qs| && qs[i] == x;
      assert qs == qs[..i] + [x] + qs[i + 1..];
      SumRemove(qs[..i], x, qs[i + 1..], f);
      RemoveMember(multiset(ps[..k]), qs[..i], x, qs[i + 1..]);
      SumPermutes(ps[..k], qs[..i] + qs[i + 1..], f);
    }
  }

  ghost function WeightFn(r: Ranking): Pair -> real {
    (p: Pair) => if p.lost != 0 && r.Has(p.off) then Recovery.WeightOf(r.Priority(p.off)) else 0.0
  }

  ghost function HighFn(r: Ranking): Pair -> real {
    (p: Pair) => if p.lost != 0 && r.Has(p.off) && r.Priority(p.off) == 3 then 1.0 else 0.0
  }

  lemma {:induction false} WeightIsSum(s: SenderState, ps: seq<Pair>)
    requires s.Ranked(ps)
    ensures Recovery.Weight(s.Reports(ps)) == Sum(ps, WeightFn(s.ranking))
  {
    if ps == [] {
    } else {
      var k := |ps| - 1;
      WeightIsSum(s, ps[..k]);
      assert s.Reports(ps)[..k] == s.Reports(ps[..k]);
    }
  }

  /** Some report among `ps` is on `o` and says that it arrived, or finds its budget entry at 0. */
  ghost predicate FlaggedBy(s: SenderState, ps: seq<Pair>, o: nat) {
    exists p :: p in ps && p.off == o && (p.lost == 0 || (o in s.sentDic && s.sentDic[o] == 0))
  }

  /** The whole effect of a list of reports: each buffered chunk is flagged exactly when it was already, or
      some report says it arrived or finds its budget spent, and the high-priority losses are counted. */
  lemma {:induction false} ProcessPairsEffect(s: SenderState, ps: seq<Pair>)
    requires s.Ranked(ps)
    ensures var t := s.ProcessPairs(ps);
      && t == s.(sendBuffer := t.sendBuffer, highPriority := t.highPriority)
      && t.sendBuffer == s.sendBuffer.(offsetRecv := t.sendBuffer.offsetRecv)
      && t.sendBuffer.offsetRecv.Keys == s.sendBuffer.offsetRecv.Keys
      && (forall o :: o in s.sendBuffer.offsetRecv ==>
            t.sendBuffer.offsetRecv[o] == (s.sendBuffer.offsetRecv[o] && !FlaggedBy(s, ps, o)))
      && t.highPriority as real == s.highPriority as real + Sum(ps, HighFn(s.ranking))
  {
    if ps == [] {
    } else {
      var k := |ps| - 1;
      ProcessPairsEffect(s, ps[..k]);
      var mid, p := s.ProcessPairs(ps[..k]), ps[k];
      assert mid.Drops(p) == s.Drops(p);
      forall o ensures FlaggedBy(s, ps, o) <==> FlaggedBy(s, ps[..k], o) || (p.off == o && s.Drops(p)) {
        FlaggedSnoc(s, ps, o);
      }
      hide FlaggedBy;
    }
  }

  lemma FlaggedSnoc(s: SenderState, ps: seq<Pair>, o: nat)
    requires ps != []
    ensures var k := |ps| - 1;
      FlaggedBy(s, ps, o) <==> FlaggedBy(s, ps[..k], o) || (ps[k].off == o && s.Drops(ps[k]))
  {
    var k := |ps| - 1;
    assert ps == ps[..k] + [ps[k]];
    if FlaggedBy(s, ps[..k], o) {
      var p :| p in ps[..k] && p.off == o && (p.lost == 0 || (o in s.sentDic && s.sentDic[o] == 0));
      assert p in ps;
    }
    if ps[k].off == o && s.Drops(ps[k]) {
      assert ps[k] in ps;
    }
  }

  lemma FlagsPermute(s: SenderState, ps: seq<Pair>, qs: seq<Pair>)
    requires s.Ranked(ps) && s.Ranked(qs) && forall p :: p in ps <==> p in qs
    ensures s.ProcessPairs(ps).sendBuffer == s.ProcessPairs(qs).sendBuffer
  {
    ProcessPairsEffect(s, ps);
    ProcessPairsEffect(s, qs);
    forall o | o in s.sendBuffer.offsetRecv ensures FlaggedBy(s, ps, o) == FlaggedBy(s, qs, o) {
    }
    assert s.ProcessPairs(ps).sendBuffer.offsetRecv == s.ProcessPairs(qs).sendBuffer.offsetRecv;
  }

  lemma ProcessPairsPermutes(s: SenderState, ps: seq<Pair>, qs: seq<Pair>)
    requires s.Ranked(ps)
    requires multiset(ps) == multiset(qs)
    ensures s.Ranked(qs)
    ensures s.ProcessPairs(ps) == s.ProcessPairs(qs)
    ensures Recovery.Weight(s.Reports(ps)) == Recovery.Weight(s.Reports(qs))
  {
    forall p ensures p in ps <==> p in qs {
      assert p in multiset(ps) <==> p in multiset(qs);
    }
    FlagsPermute(s, ps, qs);
    SumPermutes(ps, qs, WeightFn(s.ranking));
    WeightIsSum(s, ps);
    WeightIsSum(s, qs);
    assert s.ProcessPairs(ps).highPriority == s.ProcessPairs(qs).highPriority by {
      ProcessPairsEffect(s, ps);
      ProcessPairsEffect(s, qs);
      SumPermutes(ps, qs, HighFn(s.ranking));
    }
    assert s.ProcessPairs(ps) == s.ProcessPairs(qs) by {
      ProcessPairsEffect(s, ps);
      ProcessPairsEffect(s, qs);
    }
  }

  /** An acknowledgement as a whole: flags, high-priority losses, the highest offset, and one window update
      by the sum of the weights of the losses; nothing else changes. */
  lemma AbsorbEffect(s: SenderState, ack: Word, ps: seq<Pair>)
    requires s.Ranked(ps)
    ensures var t := s.Absorb(ack, ps); var was, now := s.recovery, t.recovery;
      var a := Recovery.WinAdd(Sum(ps, WeightFn(s.ranking)));
      && t == s.(sendBuffer := t.sendBuffer, highPriority := t.highPriority, maxOff := t.maxOff, recovery := now)
      && t.sendBuffer == s.sendBuffer.(offsetRecv := t.sendBuffer.offsetRecv)
      && t.sendBuffer.offsetRecv.Keys == s.sendBuffer.offsetRecv.Keys
      && (forall o :: o in s.sendBuffer.offsetRecv ==>
            t.sendBuffer.offsetRecv[o] == (s.sendBuffer.offsetRecv[o] && !FlaggedBy(s, ps, o)))
      && t.highPriority as real == s.highPriority as real + Sum(ps, HighFn(s.ranking))
      && t.maxOff == (if ack > s.maxOff then ack else s.maxOff)
      && now.increWin == was.increWin + (if a > 0.0 then a.Floor else 0)
      && now.decreWin == was.decreWin + (if a > 0.0 then 0 else (-a).Floor)
      && (now.rollBack <==> was.rollBack || a != |ps| as real)
      && now.former == was.former && now.congestionWindow == was.congestionWindow
  {
    hide FlaggedBy, SenderState.ProcessPairs, SenderState.Reports, Sum, WeightFn, HighFn, Recovery.WinAdd, Recovery.Weight;
    ProcessPairsEffect(s, ps);
    WeightIsSum(s, ps);
  }

  /** Receiving an acknowledgement off the wire is absorbing its reports. */
  lemma ReceiveAck(c: ConnState, hdr: Header, ack: Word, ps: seq<Pair>)
    requires c.isServer && hdr.ty == ACK && c.snd.Ranked(ps)
    ensures var buf := Wire(Datagram(hdr, AckBody(ack, ps)));
      && c.CanReceive(buf)
      && c.RecvSlice(buf) == (c.(recvCount := c.recvCount + 1, snd := c.snd.Absorb(ack, ps)), Ok(0))
  {
    AckBodyRoundTrip(ack, ps);
    HeaderRoundTrip(hdr, AckBody(ack, ps));
    HeaderFields(hdr, AckBody(ack, ps));
  }

  /** Whatever order the receiver's hash map is iterated in, the acknowledgement leaves the sender
      in exactly the same state: flags, window accumulators and loss count. */
  lemma AckOrderIrrelevant(c: ConnState, hdr: Header, ack: Word, ps: seq<Pair>, qs: seq<Pair>)
    requires c.isServer && hdr.ty == ACK && c.snd.Ranked(ps)
    requires multiset(ps) == multiset(qs)
    ensures var a, b := Wire(Datagram(hdr, AckBody(ack, ps))), Wire(Datagram(hdr, AckBody(ack, qs)));
      c.CanReceive(a) && c.CanReceive(b) && c.RecvSlice(a) == c.RecvSlice(b)
  {
    ProcessPairsPermutes(c.snd, ps, qs);
    assert |ps| == |multiset(ps)| == |multiset(qs)| == |qs|;
    ReceiveAck(c, hdr, ack, ps);
    ReceiveAck(c, hdr, ack, qs);
  }
}
