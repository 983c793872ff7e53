/** Sender, receiver and a network that loses, duplicates and reorders datagrams, as a step system. */
module Protocol {
  import opened Bytes
  import opened Packet
  import opened Priority
  import opened RangeBuffer
  import opened Connection
  import Recovery
  import S = SendBuffer
  import R = RecvBuffer

  // ------------------------------------------------------------ the step system

  /** `a` sends the stream, `b` receives it. `toB` and `toA` hold every datagram ever sent: any of
      them may be delivered at any time, any number of times, or never. `created` are all chunks
      ever cut from the stream, `stored` what the receiver has stored so far, `roundStart` the
      number of transmissions before the current round, and `reported` the offsets on which a
      report was processed since their last transmission. The last four only record history. */
  datatype World = World(
    a: ConnState, b: ConnState, toB: seq<Datagram>, toA: seq<Datagram>,
    created: seq<RangeBuf>, stored: map<Word, seq<Byte>>, roundStart: nat, reported: set<Word>)

  datatype Action =
    | SendAll
    | SendA(out: seq<Byte>)
    | SendB(out: seq<Byte>, order: seq<Pair>)
    | DeliverB(i: nat)
    | DeliverA(i: nat)
    | Read(out: seq<Byte>)

  const NO_RANKING := Ranking([], 0.0, 0.0)
  const NOTHING_RECEIVED := ReceiverState(R.EMPTY, map[], map[], 0)

  function NewSender(stream: seq<Byte>, ranking: Ranking): SenderState {
    SenderState(false, false, 0, 0, 0, S.EMPTY, Recovery.INITIAL, 0, 0, [], 0, map[], 0, 0, 0, ranking, stream)
  }

  function Init(stream: seq<Byte>, ranking: Ranking): World {
    World(ConnState(true, true, false, true, false, false, 0, NewSender(stream, ranking), NOTHING_RECEIVED),
          ConnState(false, true, false, true, false, false, 0, NewSender([], NO_RANKING), NOTHING_RECEIVED),
          [], [], [], map[], 0, {})
  }

  /** What the network and the callers may do: sender buffers hold a full packet. */
  ghost predicate Enabled(w: World, x: Action) {
    match x
    case SendAll => true
    case SendA(out) => |out| >= HEADER_LENGTH + S.SEND_BUFFER_SIZE
    case SendB(out, order) => (out == [] || |out| >= HEADER_LENGTH) && IsOrdering(order, w.b.rcv.recvHashmap)
    case DeliverB(i) => i < |w.toB|
    case DeliverA(i) => i < |w.toA|
    case Read(_) => true
  }

  /** The step does not hit a panic of the source. */
  ghost predicate Defined(w: World, x: Action)
    requires Enabled(w, x)
  {
    match x
    case SendAll => w.a.snd.CanSendAll()
    case SendA(out) => w.a.CanSend(out)
    case SendB(out, _) => w.b.CanSend(out)
    case DeliverB(i) => w.b.CanReceive(Wire(w.toB[i]))
    case DeliverA(i) => w.a.CanReceive(Wire(w.toA[i]))
    case Read(_) => true
  }

  function Logged(log: seq<Datagram>, r: Result<Datagram>): seq<Datagram> {
    if r.Ok? then log + [r.value] else log
  }

  ghost function AfterSendAll(w: World): World
    requires w.a.snd.CanSendAll()
  {
    w.(a := w.a.(snd := w.a.snd.SendAll().0), created := w.created + Cut(w.a.snd), roundStart := |w.a.snd.sentPkt|)
  }

  /** The offset of the transmission by which `sent'` is longer than `sent`, if it is. */
  ghost function Transmitted(sent: seq<Word>, sent': seq<Word>): set<Word> {
    if |sent'| > |sent| then {sent'[|sent'| - 1]} else {}
  }

  ghost function AfterSendA(w: World, r: Sent<ConnState>): World {
    w.(a := r.state, toB := Logged(w.toB, r.result),
       reported := w.reported - Transmitted(w.a.snd.sentPkt, r.state.snd.sentPkt))
  }

  ghost function AfterSendB(w: World, r: Sent<ConnState>): World {
    w.(b := r.state, toA := Logged(w.toA, r.result))
  }

  ghost function AfterDeliverB(w: World, d: Datagram, b: ConnState): World {
    w.(b := b, stored := if d.hdr.ty == Application then w.stored[d.hdr.offset := d.body] else w.stored)
  }

  ghost function AfterDeliverA(w: World, d: Datagram, a: ConnState): World {
    w.(a := a, reported := w.reported + ReportedBy(d))
  }

  ghost function AfterRead(w: World, out: seq<Byte>): World {
    w.(b := w.b.(rcv := w.b.rcv.(recBuffer := w.b.rcv.recBuffer.Emit(out).0)))
  }

  ghost function Step(w: World, x: Action): World
    requires Enabled(w, x) && Defined(w, x)
  {
    match x
    case SendAll => AfterSendAll(w)
    case SendA(out) => AfterSendA(w, w.a.SendData(out, []))
    case SendB(out, order) => AfterSendB(w, w.b.SendData(out, order))
    case DeliverB(i) => AfterDeliverB(w, w.toB[i], w.b.RecvSlice(Wire(w.toB[i])).0)
    case DeliverA(i) => AfterDeliverA(w, w.toA[i], w.a.RecvSlice(Wire(w.toA[i])).0)
    case Read(out) => AfterRead(w, out)
  }

  /** The chunks the next write of this sender appends. */
  ghost function Cut(s: SenderState): seq<RangeBuf>
    requires s.CanSendAll()
  {
    if |s.sendData| > s.writtenData || s.sendBuffer.data != [] then
      s.sendBuffer.Added(s.sendData[s.writtenData..], s.Window().1, S.Lead(s.totalOffset))
    else []
  }

  ghost function Named(ps: seq<Pair>): set<Word> {
    set p | p in ps :: p.off
  }

  /** The offsets an acknowledgement reports on. */
  ghost function ReportedBy(d: Datagram): set<Word> {
    if d.hdr.ty == ACK && |d.body| % 16 == 8 then Named(AckPairs(d.body)) else {}
  }

  /** `xs` is a run from `w` to `v`. */
  ghost predicate IsRun(w: World, xs: seq<Action>, v: World)
    decreases xs
  {
    if xs == [] then w == v
    else Enabled(w, xs[0]) && Defined(w, xs[0]) && IsRun(Step(w, xs[0]), xs[1..], v)
  }

  // ------------------------------------------------------------ the invariant

  function Count(s: seq<Word>, o: nat): (n: nat)
    ensures n > 0 <==> o in s
  {
    if s == [] then 0 else Count(s[..|s| - 1], o) + (if s[|s| - 1] == o then 1 else 0)
  }

  lemma CountSnoc(s: seq<Word>, x: Word, o: nat)
    ensures Count(s + [x], o) == Count(s, o) + (if x == o then 1 else 0)
  {
    assert (s + [x])[..|s|] == s;
  }

  ghost function Prio(r: Ranking, o: nat): (p: nat)
    ensures p <= 3
  {
    if r.Has(o) then r.Priority(o) else 0
  }

  /** `bytes` is the chunk that was created at `off`. */
  ghost predicate IsPiece(created: seq<RangeBuf>, off: nat, bytes: seq<Byte>) {
    From(bytes, off) in created
  }

  ghost predicate Begins(created: seq<RangeBuf>, off: nat) {
    exists c :: c in created && c.off == off
  }

  /** The chunks ever created cut the written part of the stream, and none straddles a block. */
  ghost predicate Tiles(stream: seq<Byte>, written: nat, created: seq<RangeBuf>) {
    && written <= |stream| < U64
    && S.Carves(created, stream[..written], 0)
    && (forall c :: c in created ==> S.InBlock(c))
  }

  /** Every byte of the stream lies in a block with a norm. */
  ghost predicate Covers(ranking: Ranking, n: nat) {
    forall off :: 0 <= off < n ==> ranking.Has(off)
  }

  ghost predicate Among(cs: seq<RangeBuf>, created: seq<RangeBuf>) {
    forall c :: c in cs ==> c in created
  }

  ghost predicate StreamInv(s: SenderState, created: seq<RangeBuf>) {
    && s.sendBuffer.off == s.writtenData == s.totalOffset
    && Tiles(s.sendData, s.writtenData, created)
    && S.Valid(s.sendBuffer)
    && Among(s.sendBuffer.data, created)
  }

  /** Every transmitted offset is that of a created chunk. */
  ghost predicate Known(sent: seq<Word>, created: seq<RangeBuf>) {
    forall o :: o in sent ==> Begins(created, o)
  }

  /** Priority plus one, counted down `t` times in `u64` arithmetic. */
  ghost function Left(p: nat, t: nat): Word
    requires p <= 3
  {
    if t == 0 then p + 1 else WrappingSub(Left(p, t - 1), 1)
  }

  /** The budget entry of a transmitted offset is what its transmissions have left. */
  ghost predicate Budgets(sent: seq<Word>, dic: map<Word, Word>, r: Ranking) {
    && (forall o :: o in dic <==> o in sent)
    && (forall o :: o in dic ==> r.Has(o) && dic[o] == Left(Prio(r, o), Count(sent, o)))
  }

  ghost predicate TxInv(s: SenderState, created: seq<RangeBuf>) {
    Known(s.sentPkt, created) && Budgets(s.sentPkt, s.sentDic, s.ranking)
  }

  /** It arrived, or it was sent more often than its priority. */
  ghost predicate Settled(sent: seq<Word>, r: Ranking, got: map<Word, Byte>, o: nat) {
    o in got || Count(sent, o) > Prio(r, o)
  }

  /** Chunks that left the queue, or are flagged to leave it, are settled. */
  ghost predicate AllSettled(data: seq<RangeBuf>, flags: map<nat, bool>, sent: seq<Word>, r: Ranking, created: seq<RangeBuf>, got: map<Word, Byte>) {
    forall c :: c in created && (c !in data || (c.off in flags && !flags[c.off])) ==> Settled(sent, r, got, c.off)
  }

  ghost predicate SafeInv(s: SenderState, created: seq<RangeBuf>, got: map<Word, Byte>) {
    AllSettled(s.sendBuffer.data, s.sendBuffer.offsetRecv, s.sentPkt, s.ranking, created, got)
  }

  ghost predicate Honest(d: Datagram, created: seq<RangeBuf>, sentPkt: seq<Word>, r: Ranking) {
    match d.hdr.ty
    case Application =>
      IsPiece(created, d.hdr.offset, d.body) && d.hdr.priority == Prio(r, d.hdr.offset) && d.hdr.pktLength == |d.body|
    case ElictAck => |d.body| % 8 == 0 && d.hdr.pktLength == |d.body| <= 64 && forall o :: o in DecodeWords(d.body) ==> o in sentPkt
    case Handshake => true
    case _ => false
  }

  ghost predicate ToBInv(log: seq<Datagram>, created: seq<RangeBuf>, sentPkt: seq<Word>, r: Ranking) {
    forall d :: d in log ==> Honest(d, created, sentPkt, r)
  }

  ghost predicate TruePair(p: Pair, sentPkt: seq<Word>, got: map<Word, Byte>) {
    p.off in sentPkt && (p.lost == 0 ==> p.off in got)
  }

  ghost predicate IsAck(d: Datagram, ack: Word, ps: seq<Pair>, sentPkt: seq<Word>, got: map<Word, Byte>) {
    d.body == AckBody(ack, ps) && forall p :: p in ps ==> TruePair(p, sentPkt, got)
  }

  ghost predicate Truthful(d: Datagram, sentPkt: seq<Word>, got: map<Word, Byte>) {
    match d.hdr.ty
    case ACK => exists ack, ps :: IsAck(d, ack, ps, sentPkt, got)
    case Handshake => true
    case Stop => true
    case _ => false
  }

  ghost predicate ToAInv(log: seq<Datagram>, sentPkt: seq<Word>, got: map<Word, Byte>) {
    forall d :: d in log ==> Truthful(d, sentPkt, got)
  }

  /** Everything stored or buffered at the receiver is a created chunk, and pending reports are true. */
  ghost predicate ReceiverInv(r: ReceiverState, stored: map<Word, seq<Byte>>, created: seq<RangeBuf>, sentPkt: seq<Word>) {
    && stored.Keys == r.recvDic.Keys
    && (forall o :: o in stored ==> IsPiece(created, o, stored[o]))
    && R.Shaped(r.recBuffer)
    && (forall k :: k in r.recBuffer.data ==> IsPiece(created, r.recBuffer.data[k].off, r.recBuffer.data[k].data))
    && (forall o :: o in r.recvHashmap ==> TruePair(Pair(o, r.recvHashmap[o]), sentPkt, r.recvDic))
  }

  /** Offsets of the data packets of a log, in the order sent. */
  ghost function DataOffsets(log: seq<Datagram>): seq<Word> {
    if log == [] then []
    else
      var d := log[|log| - 1];
      DataOffsets(log[..|log| - 1]) + (if d.hdr.ty == Application then [d.hdr.offset] else [])
  }

  /** Offsets the solicitations of a log ask about, in the order sent. */
  ghost function Asked(log: seq<Datagram>): seq<Word> {
    if log == [] then []
    else
      var d := log[|log| - 1];
      Asked(log[..|log| - 1]) + (if d.hdr.ty == ElictAck && |d.body| % 8 == 0 then DecodeWords(d.body) else [])
  }

  /** The packet counter is the number of transmissions not yet asked about. */
  ghost predicate Counted(s: SenderState) {
    && s.ackPoint <= |s.sentPkt|
    && s.sentCount == |s.sentPkt| - s.ackPoint <= ELICT_FLAG
    && (s.stopAck ==> s.stopFlag && s.ackPoint == |s.sentPkt|)
  }

  /** `d`, sent after `log`, asks about exactly the offsets sent and not yet asked about. */
  ghost predicate AsksPending(log: seq<Datagram>, d: Datagram) {
    |Asked(log)| <= |DataOffsets(log)| && d.body == EncodeWords(DataOffsets(log)[|Asked(log)|..])
  }

  /** Every solicitation asked about exactly what was pending when it was sent. */
  ghost predicate AskedExactly(log: seq<Datagram>) {
    log != [] ==>
      var k := |log| - 1;
      AskedExactly(log[..k]) && (log[k].hdr.ty == ElictAck ==> AsksPending(log[..k], log[k]))
  }

  /** What was sent and what was asked about, read off the log. */
  ghost predicate LogInv(log: seq<Datagram>, sent: seq<Word>, ackPoint: nat) {
    ackPoint <= |sent| && DataOffsets(log) == sent && Asked(log) == sent[..ackPoint] && AskedExactly(log)
  }

  ghost predicate Roles(w: World) {
    && w.a.isServer && !w.a.recvFlag && w.a.rcv == NOTHING_RECEIVED
    && !w.b.isServer && w.b.rttZero && w.b.snd == NewSender([], NO_RANKING)
  }

  ghost predicate Inv(w: World) {
    && Roles(w)
    && StreamInv(w.a.snd, w.created)
    && TxInv(w.a.snd, w.created)
    && Counted(w.a.snd)
    && LogInv(w.toB, w.a.snd.sentPkt, w.a.snd.ackPoint)
    && SafeInv(w.a.snd, w.created, w.b.rcv.recvDic)
    && ToBInv(w.toB, w.created, w.a.snd.sentPkt, w.a.snd.ranking)
    && ToAInv(w.toA, w.a.snd.sentPkt, w.b.rcv.recvDic)
    && ReceiverInv(w.b.rcv, w.stored, w.created, w.a.snd.sentPkt)
  }
}
