/** The endpoint as the object it is in the source, refined to the value functions of `Connection`. */
module Endpoint {
  import opened Bytes
  import opened Packet
  import opened Priority
  import opened Model = Connection
  import V = Recovery
  import S = SendBuffer
  import R = RecvBuffer

  // ------------------------------------------------------------ writing and reading words

  /** Writes the words one after the other. */
  method PutWords(b: OctetsMut, ws: seq<Word>) returns (ok: bool)
    requires b.Valid()
    modifies b`off, b.buf
    ensures b.Valid()
    ensures ok <==> old(b.off) + 8 * |ws| <= b.buf.Length
    ensures ok ==> b.off == old(b.off) + 8 * |ws| && b.buf[..] == Splice(old(b.buf[..]), old(b.off), EncodeWords(ws))
  {
    ghost var s, at := b.buf[..], b.off;
    var i := 0;
    while i < |ws|
      invariant 0 <= i <= |ws| && b.off == at + 8 * i <= b.buf.Length
      invariant b.buf[..] == Splice(s, at, EncodeWords(ws[..i]))
    {
      hide Splice, EncodeWord;
      ok := b.PutU64(ws[i]);
      if !ok {
        return;
      }
      SpliceTwice(s, at, EncodeWords(ws[..i]), EncodeWord(ws[i]));
      EncodeSnoc(ws, i);
      i := i + 1;
    }
    assert ws[..i] == ws;
    ok := true;
  }

  lemma EncodeSnoc(ws: seq<Word>, i: nat)
    requires i < |ws|
    ensures EncodeWords(ws[..i + 1]) == EncodeWords(ws[..i]) + EncodeWord(ws[i])
  {
    assert ws[..i + 1] == ws[..i] + [ws[i]];
    EncodeWordsAppend(ws[..i], [ws[i]]);
    assert EncodeWords([ws[i]]) == EncodeWord(ws[i]) by { assert [ws[i]][1..] == []; }
  }

  lemma {:induction false} DecodePairsAt(ws: seq<Word>, k: nat)
    requires |ws| % 2 == 0 && 2 * k + 2 <= |ws|
    ensures DecodePairs(ws)[k] == Pair(ws[2 * k], ws[2 * k + 1])
  {
    if k == 0 {
    } else {
      DecodePairsAt(ws[2..], k - 1);
    }
  }

  /** The two words at a byte position. */
  function ReadPair(body: seq<Byte>, start: nat): Pair
    requires start + 16 <= |body|
  {
    Pair(DecodeWord(body[start..start + 8]), DecodeWord(body[start + 8..start + 16]))
  }

  /** The `k`-th report of an acknowledgement body, read at its byte position. */
  lemma PairAt(body: seq<Byte>, k: nat)
    requires |body| % 16 == 8 && 16 * k + 24 <= |body|
    ensures k < |AckPairs(body)| && AckPairs(body)[k] == ReadPair(body, 16 * k + 8)
    ensures AckPairs(body)[k].off == DecodeWord(body[16 * k + 8..16 * k + 16])
    ensures AckPairs(body)[k].lost == DecodeWord(body[16 * k + 16..16 * k + 24])
  {
    var ws := AckWords(body);
    DecodePairsAt(ws[1..], k);
    DecodeWordsAt(body, 2 * k + 1);
    DecodeWordsAt(body, 2 * k + 2);
    assert 8 * (2 * k + 1) == 16 * k + 8 && 8 * (2 * k + 2) == 16 * k + 16;
  }

  /** A header at the start of the buffer with the body right behind it is the datagram. */
  lemma OnTheWire(out: seq<Byte>, d: Datagram)
    requires |out| >= HEADER_LENGTH + |d.body|
    requires out[..HEADER_LENGTH] == HeaderBytes(d.hdr) && out[HEADER_LENGTH..][..|d.body|] == d.body
    ensures out[..HEADER_LENGTH + |d.body|] == Wire(d)
  {
    assert out[..HEADER_LENGTH + |d.body|] == out[..HEADER_LENGTH] + out[HEADER_LENGTH..][..|d.body|];
  }

  lemma SplitAt(out: seq<Byte>, h: seq<Byte>, t: seq<Byte>)
    requires |h| == HEADER_LENGTH && |out| >= HEADER_LENGTH + |t|
    ensures var s := Splice(Splice(out, 0, h), HEADER_LENGTH, t);
      && s[..HEADER_LENGTH] == h
      && s[HEADER_LENGTH..] == Splice(out[HEADER_LENGTH..], 0, t)
  {
    var s := Splice(Splice(out, 0, h), HEADER_LENGTH, t);
    assert Splice(out, 0, h)[HEADER_LENGTH + |t|..] == out[HEADER_LENGTH..][|t|..];
  }

  /** What `send_data` reports and leaves in the buffer, for the datagram it is meant to send. */
  ghost predicate Delivers(result: Result<Datagram>, r: Result<nat>, out: seq<Byte>) {
    match result
    case Err(e) => r == Err(e)
    case Ok(d) =>
      && r == Ok(HEADER_LENGTH + d.hdr.pktLength)
      && |out| >= HEADER_LENGTH + |d.body| && out[..HEADER_LENGTH + |d.body|] == Wire(d)
  }

  // ------------------------------------------------------------ the object

  class Connection {
    const isServer: bool
    var rttZero: bool
    var handshakeCompleted: bool
    var handshakeConfirmed: bool
    var recvFlag: bool
    var feedBack: bool
    var recvCount: nat

    var stopFlag: bool
    var stopAck: bool
    var sentCount: nat
    var sentNumber: nat
    var highPriority: nat
    const sendBuffer: S.SendBuf
    const recovery: V.Recovery
    var writtenData: nat
    var totalOffset: nat
    var sentPkt: seq<Word>
    var ackPoint: nat
    var sentDic: map<Word, Word>
    var maxOff: Word
    var nextPktNum: Word
    var nextElictNum: Word
    const ranking: Ranking
    const sendData: seq<Byte>

    const recBuffer: R.RecvBuf
    var recvDic: map<Word, Byte>
    var recvHashmap: map<Word, Word>
    var sendNum: Word

    ghost function Snd(): SenderState
      reads this, sendBuffer, recovery
    {
      SenderState(stopFlag, stopAck, sentCount, sentNumber, highPriority, sendBuffer.Value(), recovery.Value(),
                  writtenData, totalOffset, sentPkt, ackPoint, sentDic, maxOff, nextPktNum, nextElictNum, ranking, sendData)
    }

    ghost function Rcv(): ReceiverState
      reads this, recBuffer
    {
      ReceiverState(recBuffer.Value(), recvDic, recvHashmap, sendNum)
    }

    ghost function Value(): ConnState
      reads this, sendBuffer, recovery, recBuffer
    {
      ConnState(isServer, rttZero, handshakeCompleted, handshakeConfirmed, recvFlag, feedBack, recvCount, Snd(), Rcv())
    }

    /** The object is in state `c`. */
    ghost predicate Matches(c: ConnState)
      reads this, sendBuffer, recovery, recBuffer
    {
      && isServer == c.isServer && rttZero == c.rttZero
      && handshakeCompleted == c.handshakeCompleted && handshakeConfirmed == c.handshakeConfirmed
      && recvFlag == c.recvFlag && feedBack == c.feedBack && recvCount == c.recvCount
      && Snd() == c.snd && Rcv() == c.rcv
    }

    constructor (isServer: bool, ranking: Ranking, sendData: seq<Byte>)
      ensures fresh(sendBuffer) && fresh(recovery) && fresh(recBuffer)
      ensures Value() == ConnState(isServer, true, false, true, false, false, 0,
        SenderState(false, false, 0, 0, 0, S.EMPTY, V.INITIAL, 0, 0, [], 0, map[], 0, 0, 0, ranking, sendData),
        ReceiverState(R.EMPTY, map[], map[], 0))
    {
      this.isServer, this.ranking, this.sendData := isServer, ranking, sendData;
      rttZero, handshakeCompleted, handshakeConfirmed, recvFlag, feedBack, recvCount := true, false, true, false, false, 0;
      stopFlag, stopAck, sentCount, sentNumber, highPriority := false, false, 0, 0, 0;
      writtenData, totalOffset, sentPkt, ackPoint, sentDic, maxOff := 0, 0, [], 0, map[], 0;
      nextPktNum, nextElictNum := 0, 0;
      recvDic, recvHashmap, sendNum := map[], map[], 0;
      sendBuffer := new S.SendBuf();
      recovery := new V.Recovery();
      recBuffer := new R.RecvBuf();
    }

    function IsStopped(): bool
      reads this
    {
      stopFlag && stopAck
    }

    // -------------------------------------------------------- starting a round

    /** The write of one window; the caller advances the two counters by the bytes written. */
    method Write() returns (n: nat)
      requires Snd().CanSendAll()
      modifies this`highPriority, this`sentNumber, sendBuffer, recovery
      ensures Snd().(writtenData := writtenData + n, totalOffset := totalOffset + n) == old(Snd()).Write()
    {
      hide S.SendState.Write, V.RecoveryState.Cwnd, V.RecoveryState.Rollback;
      var offLen := 0;
      if totalOffset % S.SEND_BUFFER_SIZE != 0 {
        offLen := S.SEND_BUFFER_SIZE - totalOffset % S.SEND_BUFFER_SIZE;
      }
      var high := if sentNumber == 0 then highPriority > 0
                  else highPriority as real / sentNumber as real > CONGESTION_THRESHOLD;
      highPriority := 0;
      sentNumber := 0;
      var window;
      if high {
        window := recovery.Rollback();
      } else {
        window := recovery.Cwnd();
      }
      n := sendBuffer.Write(sendData[writtenData..], window, offLen);
    }

    method SendAll() returns (more: bool)
      requires Snd().CanSendAll()
      modifies this`stopFlag, this`stopAck, this`writtenData, this`totalOffset, this`highPriority, this`sentNumber, sendBuffer, recovery
      ensures Snd() == old(Snd()).SendAll().0 && more == old(Snd()).SendAll().1
    {
      hide SenderState.Write, SenderState.CanSendAll;
      ghost var s := Snd();
      stopFlag := false;
      stopAck := false;
      RestartFrame(s);
      ghost var t := Snd();
      assert t == s.(stopFlag := false, stopAck := false);
      if |sendData| > writtenData {
        more := true;
      } else {
        more := sendBuffer.data != [];
      }
      if more {
        var n := Write();
        writtenData := writtenData + n;
        totalOffset := totalOffset + n;
        assert Snd() == t.Write();
      }
    }

    // -------------------------------------------------------- acknowledgements

    /** One report: drop, weight and loss count. */
    method ProcessPair(unack: Word, lost: Word) returns (weight: real)
      requires ranking.Has(unack)
      modifies this`highPriority, sendBuffer
      ensures Snd() == old(Snd()).ProcessPair(Pair(unack, lost))
      ensures weight == V.WeightOf(old(Snd()).ReportOf(Pair(unack, lost)))
    {
      var priority := lost;
      if unack in sentDic && sentDic[unack] == 0 {
        sendBuffer.AckAndDrop(unack);
      }
      if priority != 0 {
        priority := ranking.Priority(unack);
      }
      weight := 0.0;
      if priority == 1 {
        weight := 0.15;
      } else if priority == 2 {
        weight := 0.2;
      } else if priority == 3 {
        weight := 0.25;
      } else {
        sendBuffer.AckAndDrop(unack);
      }
      if priority != 0 && ranking.Priority(unack) == 3 {
        highPriority := highPriority + 1;
      }
    }

    /** The loop over the reports of a body; the first word was read already. */
    method ProcessReports(unackbuf: seq<Byte>) returns (weights: real)
      requires Snd().CanProcess(unackbuf)
      modifies this`highPriority, sendBuffer
      ensures Snd() == old(Snd()).ProcessPairs(AckPairs(unackbuf))
      ensures weights == V.Weight(old(Snd()).Reports(AckPairs(unackbuf)))
    {
      ghost var s, ps := Snd(), AckPairs(unackbuf);
      assert s.ranking == ranking && |unackbuf| == 16 * |ps| + 8;
      NoReports(s, ps);
      hide Snd, SenderState.Ranked, SenderState.ProcessPair, SenderState.ProcessPairs, SenderState.Reports,
        V.Weight, V.WeightOf, SenderState.ReportOf, AckPairs, ReadPair;
      var start := 8;
      weights := 0.0;
      ghost var k := 0;
      while start < |unackbuf|
        invariant start == 16 * k + 8 && k <= |ps| && s.Ranked(ps) && s.Ranked(ps[..k])
        invariant Snd() == s.ProcessPairs(ps[..k]) && weights == V.Weight(s.Reports(ps[..k]))
      {
        PairAt(unackbuf, k);
        OneMore(s, ps, k);
        var p := ReadPair(unackbuf, start);
        start := start + 16;
        var w := ProcessPair(p.off, p.lost);
        weights := weights + w;
        k := k + 1;
      }
      assert ps[..k] == ps;
    }

    method ProcessAck(unackbuf: seq<Byte>)
      requires Snd().CanProcess(unackbuf)
      modifies this`maxOff, this`highPriority, sendBuffer, recovery
      ensures Snd() == old(Snd()).ProcessAck(unackbuf) && Rcv() == old(Rcv())
    {
      hide SenderState.ProcessPairs, SenderState.Reports, V.Weight, V.RecoveryState.UpdateWin, DecodeWords, AckPairs;
      ghost var s := Snd();
      var maxAck := DecodeWord(unackbuf[..8]);
      FirstWord(unackbuf);
      if maxAck > maxOff {
        maxOff := maxAck;
      }
      MaxOffFrame(s, maxOff, AckPairs(unackbuf));
      var weights := ProcessReports(unackbuf);
      recovery.UpdateWin(weights, (|unackbuf| / 16) as real);
    }

    // -------------------------------------------------------- receiving

    /** Which of the solicited offsets have arrived. */
    method CheckLoss(recvBuf: seq<Byte>)
      requires |recvBuf| % 8 == 0
      modifies this`recvHashmap
      ensures Rcv() == old(Rcv()).(recvHashmap := old(Rcv()).CheckLoss(DecodeWords(recvBuf))) && Snd() == old(Snd())
    {
      ghost var r, ws := Rcv(), DecodeWords(recvBuf);
      var off := 0;
      ghost var k := 0;
      while off < |recvBuf|
        invariant off == 8 * k && k <= |ws|
        invariant recvHashmap == r.CheckLoss(ws[..k])
      {
        hide DecodeWords, DecodeWord;
        DecodeWordsAt(recvBuf, k);
        var offset := DecodeWord(recvBuf[off..off + 8]);
        off := off + 8;
        if offset in recvDic {
          recvHashmap := recvHashmap[offset := 0];
        } else {
          recvHashmap := recvHashmap[offset := 1];
        }
        assert ws[..k + 1][..k] == ws[..k] && ws[..k + 1][k] == ws[k];
        k := k + 1;
      }
      assert ws[..k] == ws;
    }

    method CountReceived()
      modifies this`recvCount
      ensures recvCount == old(recvCount) + 1 && Snd() == old(Snd()) && Rcv() == old(Rcv())
    {
      recvCount := recvCount + 1;
    }

    method ReceiveHandshake()
      modifies this`rttZero, this`handshakeCompleted, this`handshakeConfirmed, this`feedBack
      ensures isServer ==> !rttZero && handshakeCompleted && handshakeConfirmed == old(handshakeConfirmed) && feedBack == old(feedBack)
      ensures !isServer ==> !handshakeConfirmed && feedBack && rttZero == old(rttZero) && handshakeCompleted == old(handshakeCompleted)
      ensures Snd() == old(Snd()) && Rcv() == old(Rcv())
    {
      if isServer {
        rttZero := false;
        handshakeCompleted := true;
      }
      if !isServer {
        handshakeConfirmed := false;
        feedBack := true;
      }
    }

    method MarkSolicited(pktNum: Word)
      modifies this`recvFlag, this`sendNum, this`feedBack
      ensures recvFlag && feedBack && Rcv() == old(Rcv()).(sendNum := pktNum) && Snd() == old(Snd())
    {
      recvFlag := true;
      sendNum := pktNum;
      feedBack := true;
    }

    method ReceiveElictAck(pktNum: Word, body: seq<Byte>)
      requires |body| % 8 == 0
      modifies this`recvFlag, this`sendNum, this`recvHashmap, this`feedBack
      ensures recvFlag && feedBack && Rcv() == old(Rcv()).Solicited(pktNum, DecodeWords(body)) && Snd() == old(Snd())
    {
      hide Snd, Rcv, ReceiverState.CheckLoss, DecodeWords;
      SolicitFrame(Rcv(), pktNum, DecodeWords(body));
      MarkSolicited(pktNum);
      CheckLoss(body);
    }

    method ReceiveApplication(hdr: Header, body: seq<Byte>)
      modifies this`recvCount, this`recvDic, recBuffer
      ensures recvCount == old(recvCount) + 1 && Rcv() == old(Rcv()).Store(hdr.offset, hdr.priority, body) && Snd() == old(Snd())
    {
      recvCount := recvCount + 1;
      recBuffer.Write(body, hdr.offset);
      recvDic := recvDic[hdr.offset := hdr.priority];
    }

    /** What a datagram does, by its type. */
    method Receive(hdr: Header, body: seq<Byte>) returns (r: Result<nat>)
      requires Value().CanTake(hdr.ty, body)
      modifies this, sendBuffer, recovery, recBuffer
      ensures Matches(old(Value()).Receive(hdr, body).0) && r == old(Value()).Receive(hdr, body).1
    {
      hide Snd, Rcv, SenderState.ProcessAck, SenderState.CanProcess, ReceiverState.Solicited, ReceiverState.Store, DecodeWords;
      CountReceived();
      r := Ok(0);
      if hdr.ty == Handshake {
        ReceiveHandshake();
        return;
      }
      if hdr.ty == ACK && isServer {
        ProcessAck(body);
        return;
      }
      if hdr.ty == ElictAck {
        ReceiveElictAck(hdr.pktNum, body);
        return;
      }
      if hdr.ty == Application {
        ReceiveApplication(hdr, body);
        return Ok(hdr.pktLength);
      }
      if hdr.ty == Type.Stop {
        return Err(Stopped);
      }
    }

    method RecvSlice(buf: array<Byte>) returns (r: Result<nat>)
      requires Value().CanReceive(buf[..])
      modifies this, sendBuffer, recovery, recBuffer
      ensures Matches(old(Value()).RecvSlice(buf[..]).0) && r == old(Value()).RecvSlice(buf[..]).1
    {
      hide ConnState.Receive, ConnState.CanTake;
      if buf.Length == 0 {
        return Err(BufferTooShort);
      }
      var b := new OctetsMut.WithSlice(buf);
      var hdr := FromBytes(b);
      if hdr.Err? {
        recvCount := recvCount + 1;
        return Err(hdr.error);
      }
      r := Receive(hdr.value, buf[HEADER_LENGTH..]);
    }

    method Read(out: array<Byte>) returns (r: Result<nat>)
      modifies recBuffer, out
      ensures var (st, answer) := old(Rcv()).recBuffer.Emit(old(out[..]));
        && Rcv() == old(Rcv()).(recBuffer := st)
        && match answer
           case Err(e) => r == Err(e) && out[..] == old(out[..])
           case Ok(done) => r == Ok(done.len) && out[..] == done.out
    {
      hide R.RecvState.Emit;
      r := recBuffer.Emit(out);
    }

    // -------------------------------------------------------- sending

    method WritePktType() returns (r: Result<Type>)
      modifies this`handshakeCompleted, this`handshakeConfirmed, this`sentCount, this`recvFlag
      ensures Matches(old(Value()).WritePktType().0) && r == old(Value()).WritePktType().1
    {
      hide ConnState.WritePktType;
      TypeFrame(Value());
      r := SelectType();
    }

    /** Together with the frame this is the whole new state. */
    method SelectType() returns (r: Result<Type>)
      modifies this`handshakeCompleted, this`handshakeConfirmed, this`sentCount, this`recvFlag
      ensures var (c, ty) := old(Value()).WritePktType();
        && r == ty
        && handshakeCompleted == c.handshakeCompleted && handshakeConfirmed == c.handshakeConfirmed
        && sentCount == c.snd.sentCount && recvFlag == c.recvFlag
    {
      if rttZero && isServer {
        handshakeCompleted := true;
        return Ok(Handshake);
      }
      if !handshakeConfirmed && !isServer {
        handshakeConfirmed := true;
        return Ok(Handshake);
      }
      if (sentCount % ELICT_FLAG == 0 && sentCount > 0) || stopFlag {
        sentCount := 0;
        return Ok(ElictAck);
      }
      if recvFlag {
        recvFlag := false;
        return Ok(ACK);
      }
      if !rttZero {
        return Ok(Application);
      }
      if sendBuffer.data == [] {
        return Ok(Type.Stop);
      }
      r := Err(Done);
    }

    /** A header at the start of the buffer and words behind it. */
    static method PutPacket(out: array<Byte>, hdr: Header, ws: seq<Word>) returns (ok: bool)
      requires out.Length >= HEADER_LENGTH
      modifies out
      ensures ok <==> HEADER_LENGTH + 8 * |ws| <= out.Length
      ensures ok ==> out[..HEADER_LENGTH] == HeaderBytes(hdr)
      ensures ok ==> out[HEADER_LENGTH..] == Splice(old(out[HEADER_LENGTH..]), 0, EncodeWords(ws))
    {
      hide Splice, HeaderBytes;
      ghost var before := out[..];
      var b := new OctetsMut.WithSlice(out);
      var r := ToBytes(hdr, b);
      ok := PutWords(b, ws);
      if ok {
        SplitAt(before, HeaderBytes(hdr), EncodeWords(ws));
      }
    }

    method ClearFeedBack()
      modifies this`feedBack
      ensures !feedBack && Snd() == old(Snd()) && Rcv() == old(Rcv())
    {
      feedBack := false;
    }

    static method PutHeader(out: array<Byte>, hdr: Header)
      requires out.Length >= HEADER_LENGTH
      modifies out
      ensures out[..HEADER_LENGTH] == HeaderBytes(hdr) == Wire(Datagram(hdr, []))
      ensures out[HEADER_LENGTH..] == old(out[HEADER_LENGTH..])
    {
      NoWords();
      var ok := PutPacket(out, hdr, []);
    }

    static method SendStop(out: array<Byte>)
      requires out.Length >= HEADER_LENGTH
      modifies out
      ensures Delivers(Ok(GOODBYE), Ok(HEADER_LENGTH), out[..])
    {
      PutHeader(out, GOODBYE.hdr);
    }

    method RecordAsked()
      modifies this`ackPoint, this`stopAck
      ensures Rcv() == old(Rcv())
      ensures var s := old(Snd()); Snd() == s.(ackPoint := |s.sentPkt|, stopAck := s.stopAck || s.stopFlag)
    {
      ackPoint := |sentPkt|;
      if stopFlag {
        stopAck := true;
      }
    }

    method TakeElictNum() returns (pn: Word)
      modifies this`nextElictNum
      ensures pn == old(Snd()).nextElictNum && Rcv() == old(Rcv())
      ensures Snd() == old(Snd()).(nextElictNum := Next(pn))
    {
      pn := nextElictNum;
      nextElictNum := Next(nextElictNum);
    }

    lemma Fields()
      ensures var s := Snd();
        && s.stopFlag == stopFlag && s.stopAck == stopAck && s.sentPkt == sentPkt && s.ackPoint == ackPoint
        && s.writtenData == writtenData && s.ranking == ranking && s.sendBuffer == sendBuffer.Value()
    {
    }

    method SendElictAck(out: array<Byte>) returns (r: Result<nat>)
      requires HEADER_LENGTH <= out.Length < U64 && Snd().ackPoint <= |Snd().sentPkt|
      modifies this`nextElictNum, this`ackPoint, this`stopAck, out
      ensures var e := old(Snd()).SendElictAck(old(out[HEADER_LENGTH..]));
        Snd() == e.state && Rcv() == old(Rcv()) && Delivers(e.result, r, out[..])
    {
      hide Snd, Rcv, HeaderBytes, Splice, EncodeWords, Next;
      ghost var tail := out[HEADER_LENGTH..];
      Fields();
      var pn := TakeElictNum();
      Fields();
      var res := sentPkt[ackPoint..];
      var psize := if stopFlag then 8 * (|sentPkt| - ackPoint) else 64;
      var hdr := Header(ElictAck, pn, 0, 0, psize % U64);
      var ok := PutPacket(out, hdr, res);
      if !ok {
        return Err(BufferTooShort);
      }
      RecordAsked();
      r := Ok(HEADER_LENGTH + psize);
      ghost var body := Splice(tail, 0, EncodeWords(res))[..Min(psize, |tail|)];
      OnTheWire(out[..], Datagram(hdr, body));
    }

    method CountSent() returns (pn: Word)
      modifies this`sentCount, this`sentNumber, this`nextPktNum
      ensures var s := old(Snd());
        && pn == s.nextPktNum && Rcv() == old(Rcv())
        && Snd() == s.(sentCount := s.sentCount + 1, sentNumber := s.sentNumber + 1, nextPktNum := Next(pn))
    {
      sentCount := sentCount + 1;
      sentNumber := sentNumber + 1;
      pn := nextPktNum;
      nextPktNum := Next(nextPktNum);
    }

    method MarkSent(off: Word, priority: Byte, stop: bool)
      modifies this`sentDic, this`stopFlag, this`sentPkt
      ensures var s := old(Snd());
        && Rcv() == old(Rcv())
        && Snd() == s.(sentDic := s.Charge(off, priority), stopFlag := s.stopFlag || stop, sentPkt := s.sentPkt + [off])
    {
      if off in sentDic {
        sentDic := sentDic[off := WrappingSub(sentDic[off], 1)];
      } else {
        sentDic := sentDic[off := priority];
      }
      stopFlag := stopFlag || stop;
      sentPkt := sentPkt + [off];
    }

    /** The copy of the next chunk to behind the header. */
    method EmitNext(out: array<Byte>) returns (outLen: nat, off: nat, stop: bool)
      requires HEADER_LENGTH <= out.Length
      modifies sendBuffer, out
      ensures var s, tail := old(Snd()), old(out[HEADER_LENGTH..]); var e := s.sendBuffer.Emit(tail);
        && outLen == e.outLen <= |out[HEADER_LENGTH..]| && off == e.outOff == s.sendBuffer.OffFront() && stop == e.stop
        && out[HEADER_LENGTH..] == e.out
        && Snd() == s.(sendBuffer := e.buf) && Rcv() == old(Rcv())
    {
      hide S.SendState.Emit, S.SendState.OffFront;
      S.EmitBounds(sendBuffer.Value(), out[HEADER_LENGTH..]);
      outLen, off, stop := sendBuffer.Emit(out, HEADER_LENGTH);
    }

    method SendApplication(out: array<Byte>) returns (r: Result<nat>)
      requires HEADER_LENGTH <= out.Length < U64 && Snd().CanSend()
      modifies this`sentCount, this`sentNumber, this`nextPktNum, this`sentDic, this`stopFlag, this`sentPkt, sendBuffer, out
      ensures var e := old(Snd()).SendApplication(old(out[HEADER_LENGTH..]));
        Snd() == e.state && Rcv() == old(Rcv()) && Delivers(e.result, r, out[..])
    {
      hide Snd, Rcv, S.SendState.Emit, S.SendState.OffFront, HeaderBytes, Next;
      ghost var s := Snd();
      var outLen, off, stop := EmitNext(out);
      Fields();
      ghost var body := out[HEADER_LENGTH..][..outLen];
      if off >= writtenData {
        return Err(Done);
      }
      var pn := CountSent();
      var priority := ranking.Priority(off);
      ChargeFrame(s, Snd(), off, priority);
      MarkSent(off, priority, stop);
      var hdr := Header(Application, pn, priority, off, outLen % U64);
      PutHeader(out, hdr);
      r := Ok(HEADER_LENGTH + outLen);
      OnTheWire(out[..], Datagram(hdr, body));
    }

    method SendHandshake(out: array<Byte>)
      requires out.Length >= HEADER_LENGTH
      modifies this`feedBack, out
      ensures feedBack == (old(feedBack) && isServer) && Snd() == old(Snd()) && Rcv() == old(Rcv())
      ensures Delivers(Ok(HELLO), Ok(HEADER_LENGTH), out[..])
    {
      PutHeader(out, HELLO.hdr);
      if !isServer {
        feedBack := false;
      }
    }

    /** All entries of the map, in whatever order it is iterated. */
    static method Iterate(m: map<Word, Word>) returns (order: seq<Pair>)
      ensures IsOrdering(order, m)
    {
      order := [];
      var rest := m;
      while rest.Keys != {}
        invariant rest.Keys <= m.Keys && |order| + |rest| == |m|
        invariant forall p :: p in order ==> p.off in m && m[p.off] == p.lost && p.off !in rest
        invariant forall i, j :: 0 <= i < j < |order| ==> order[i].off != order[j].off
        decreases |rest|
      {
        var k :| k in rest.Keys;
        assert forall p :: p in order ==> p.off != k;
        order := order + [Pair(k, m[k])];
        rest := rest - {k};
      }
    }

    method SendAck(out: array<Byte>) returns (r: Result<nat>, ghost order: seq<Pair>)
      requires HEADER_LENGTH <= out.Length < U64
      modifies this`recvHashmap, out
      ensures IsOrdering(order, old(recvHashmap)) && Snd() == old(Snd())
      ensures var e := old(Rcv()).SendAck(out.Length - HEADER_LENGTH, order);
        Rcv() == e.state && Delivers(e.result, r, out[..])
    {
      hide HeaderBytes, Splice, EncodeWords, EncodePairs, IsOrdering;
      var psize := |recvHashmap| * 16 + 8;
      var hdr := Header(ACK, sendNum, 0, 0, psize % U64);
      var entries := Iterate(recvHashmap);
      order := entries;
      OrderingLength(order, recvHashmap);
      var ws := [recBuffer.maxRecvOff % U64] + EncodePairs(entries);
      ghost var tail := out[HEADER_LENGTH..];
      var ok := PutPacket(out, hdr, ws);
      if !ok {
        return Err(BufferTooShort), order;
      }
      recvHashmap := map[];
      r := Ok(HEADER_LENGTH + psize);
      assert Splice(tail, 0, EncodeWords(ws))[..|EncodeWords(ws)|] == EncodeWords(ws);
      OnTheWire(out[..], Datagram(hdr, EncodeWords(ws)));
    }

    /** A packet of the selected type. */
    method FillPacket(ty: Type, out: array<Byte>) returns (r: Result<nat>, ghost order: seq<Pair>)
      requires HEADER_LENGTH <= out.Length < U64 && Value().CanSendPacket(ty)
      modifies this, sendBuffer, out
      ensures ty == ACK ==> IsOrdering(order, old(recvHashmap))
      ensures var e := old(Value()).FillPacket(ty, old(out[HEADER_LENGTH..]), order);
        Matches(e.state) && Delivers(e.result, r, out[..])
    {
      hide Snd, Rcv, SenderState.SendElictAck, SenderState.SendApplication, ReceiverState.SendAck, IsOrdering, Delivers, SenderState.CanSend;
      order := [];
      r := Ok(HEADER_LENGTH);
      match ty
      case Handshake => SendHandshake(out);
      case ElictAck => r := SendElictAck(out);
      case ACK =>
        ClearFeedBack();
        r, order := SendAck(out);
      case Application => r := SendApplication(out);
      case _ => SendStop(out);
    }

    method SendPacket(ty: Type, out: array<Byte>) returns (r: Result<nat>, ghost order: seq<Pair>)
      requires HEADER_LENGTH <= out.Length < U64 && Value().CanSendPacket(ty)
      modifies this, sendBuffer, out
      ensures ty == ACK ==> IsOrdering(order, old(recvHashmap))
      ensures var e := old(Value()).SendPacket(ty, old(out[HEADER_LENGTH..]), order);
        Matches(e.state) && Delivers(e.result, r, out[..])
    {
      hide Snd, Rcv, ConnState.FillPacket, IsOrdering, Delivers;
      ghost var c, tail := Value(), out[HEADER_LENGTH..];
      r, order := FillPacket(ty, out);
      Fields();
      FinishDelivers(c.FillPacket(ty, tail, order).result, r, out[..], IsStopped());
      if (ty == Handshake || ty == ACK || ty == Application) && r.Ok? && IsStopped() {
        r := Err(Done);
      }
    }

    /** Sends one packet of the type whose turn it is into `out`. */
    method SendData(out: array<Byte>) returns (r: Result<nat>, ghost order: seq<Pair>)
      requires Value().CanSend(out[..]) && out.Length < U64
      modifies this, sendBuffer, out
      ensures out.Length > 0 && old(Value()).WritePktType().1 == Ok(ACK) ==> IsOrdering(order, old(recvHashmap))
      ensures var e := old(Value()).SendData(old(out[..]), order);
        Matches(e.state) && Delivers(e.result, r, out[..])
    {
      hide Snd, Rcv, ConnState.WritePktType, ConnState.SendPacket, IsOrdering, SenderState.CanSend;
      order := [];
      if out.Length == 0 {
        return Err(BufferTooShort), order;
      }
      TypeFrame(Value());
      ghost var c := Value().WritePktType().0;
      var ty := WritePktType();
      if ty.Err? {
        return Err(ty.error), order;
      }
      MatchedValue(c);
      r, order := SendPacket(ty.value, out);
    }

    lemma MatchedValue(c: ConnState)
      requires Matches(c)
      ensures Value() == c && recvHashmap == c.rcv.recvHashmap
    {
      hide Snd;
    }
  }

  lemma FinishDelivers(sends: Result<Datagram>, r: Result<nat>, out: seq<Byte>, stopped: bool)
    requires Delivers(sends, r, out)
    ensures sends.Ok? == r.Ok?
    ensures Delivers(if sends.Ok? && stopped then Err(Done) else sends, if r.Ok? && stopped then Err(Done) else r, out)
  {
  }

  lemma ChargeFrame(s: SenderState, t: SenderState, off: Word, priority: Byte)
    requires s.sentDic == t.sentDic
    ensures s.Charge(off, priority) == t.Charge(off, priority)
  {
  }

  /** What choosing a packet type leaves alone. */
  lemma TypeFrame(c: ConnState)
    ensures var (d, ty) := c.WritePktType();
      && d == c.(handshakeCompleted := d.handshakeCompleted, handshakeConfirmed := d.handshakeConfirmed,
                 recvFlag := d.recvFlag, snd := d.snd)
      && d.snd == c.snd.(sentCount := d.snd.sentCount)
      && (ty == Ok(Application) ==> d == c)
  {
  }

  lemma OrderingLength(order: seq<Pair>, m: map<Word, Word>)
    requires IsOrdering(order, m)
    ensures |order| == |m|
  {
  }

  lemma SolicitFrame(r: ReceiverState, n: Word, offs: seq<Word>)
    ensures r.(sendNum := n).CheckLoss(offs) == r.CheckLoss(offs)
  {
    if offs == [] {
    } else {
      SolicitFrame(r, n, offs[..|offs| - 1]);
    }
  }

  lemma NoWords()
    ensures EncodeWords([]) == [] && forall s: seq<Byte> :: Splice(s, 0, []) == s
  {
  }

  /** The stop flags play no part in a write. */
  lemma RestartFrame(s: SenderState)
    requires s.CanSendAll()
    ensures var t := s.(stopFlag := false, stopAck := false);
      t.CanSendAll() && t.Write() == s.Write().(stopFlag := false, stopAck := false)
  {
    hide S.SendState.Write, V.RecoveryState.Cwnd, V.RecoveryState.Rollback;
  }

  lemma FirstWord(body: seq<Byte>)
    requires |body| % 16 == 8
    ensures AckWords(body)[0] == DecodeWord(body[..8])
  {
    DecodeWordsAt(body, 0);
  }

  lemma NoReports(s: SenderState, ps: seq<Pair>)
    ensures s.Ranked(ps[..0]) && s.ProcessPairs(ps[..0]) == s && V.Weight(s.Reports(ps[..0])) == 0.0
  {
  }

  lemma OneMore(s: SenderState, ps: seq<Pair>, k: nat)
    requires k < |ps| && s.Ranked(ps)
    ensures s.Ranked(ps[..k]) && s.Ranked(ps[..k + 1])
    ensures s.ProcessPairs(ps[..k]).ProcessPair(ps[k]) == s.ProcessPairs(ps[..k + 1])
    ensures V.Weight(s.Reports(ps[..k + 1])) == V.Weight(s.Reports(ps[..k])) + V.WeightOf(s.ReportOf(ps[k]))
    ensures s.ranking.Has(ps[k].off) && s.ProcessPairs(ps[..k]).ReportOf(ps[k]) == s.ReportOf(ps[k])
  {
    assert ps[k] in ps;
    assert ps[..k + 1][..k] == ps[..k] && ps[..k + 1][k] == ps[k];
    var rs := s.Reports(ps[..k + 1]);
    assert rs[..k] == s.Reports(ps[..k]);
  }

  /** The highest acknowledged offset plays no part in the reports. */
  lemma {:induction false} MaxOffFrame(s: SenderState, m: Word, ps: seq<Pair>)
    requires s.Ranked(ps)
    ensures s.(maxOff := m).ProcessPairs(ps) == s.ProcessPairs(ps).(maxOff := m)
    ensures s.(maxOff := m).Reports(ps) == s.Reports(ps)
  {
    if ps == [] {
    } else {
      MaxOffFrame(s, m, ps[..|ps| - 1]);
    }
  }
}
