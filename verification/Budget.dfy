/** The retransmission budget over runs: when it is respected, and what that gives for drops. */
module Budget {
  import opened Bytes
  import opened Packet
  import opened Priority
  import opened RangeBuffer
  import opened Connection
  import opened Protocol
  import opened Safety
  import opened Rounds
  import S = SendBuffer

  /** The chunk at `o` was not sent more often than its priority plus one. */
  ghost predicate Within(s: SenderState, o: nat) {
    Count(s.sentPkt, o) <= Prio(s.ranking, o) + 1
  }

  ghost predicate WithinBudget(s: SenderState) {
    forall o :: o in s.sentPkt ==> Within(s, o)
  }

  /** The next call would transmit the chunk at `o`, whose budget entry is 0: the decrement underflows. */
  ghost predicate OverspendsAt(w: World, x: Action, o: nat) {
    var s := w.a.snd;
    Transmits(w, x) && s.sendBuffer.data[s.sendBuffer.pos].off == o && o in s.sentDic && s.sentDic[o] == 0
  }

  ghost predicate Overspends(w: World, x: Action) {
    var b := w.a.snd.sendBuffer;
    Transmits(w, x) && OverspendsAt(w, x, b.data[b.pos].off)
  }

  ghost predicate NeverAt(w: World, xs: seq<Action>, v: World, o: nat)
    requires IsRun(w, xs, v)
    decreases xs
  {
    xs != [] ==> !OverspendsAt(w, xs[0], o) && NeverAt(Step(w, xs[0]), xs[1..], v, o)
  }

  ghost predicate NeverOverspends(w: World, xs: seq<Action>, v: World)
    requires IsRun(w, xs, v)
    decreases xs
  {
    xs != [] ==> !Overspends(w, xs[0]) && NeverOverspends(Step(w, xs[0]), xs[1..], v)
  }

  lemma {:induction false} CountPrefix(a: seq<Word>, b: seq<Word>, o: nat)
    requires a <= b
    ensures Count(a, o) <= Count(b, o)
  {
    if |a| < |b| {
      CountPrefix(a, b[..|b| - 1], o);
    } else {
      assert a == b;
    }
  }

  lemma StepTransmits(w: World, x: Action)
    requires Inv(w) && Enabled(w, x) && Defined(w, x)
    ensures var s, t := w.a.snd, Step(w, x).a.snd;
      && t.ranking == s.ranking
      && (if Transmits(w, x) then
            && s.sendBuffer.data[s.sendBuffer.pos].off < U64
            && t.sentPkt == s.sentPkt + [s.sendBuffer.data[s.sendBuffer.pos].off]
          else t.sentPkt == s.sentPkt)
  {
    match x
    case SendAll =>
    case SendA(out) => SendATransmits(w, out);
    case DeliverA(i) => DeliverAFrame(w, i);
    case _ =>
  }

  lemma SendATransmits(w: World, out: seq<Byte>)
    requires Inv(w) && Enabled(w, SendA(out)) && Defined(w, SendA(out))
    ensures var x, s, t := SendA(out), w.a.snd, Step(w, SendA(out)).a.snd;
      && t.ranking == s.ranking
      && (if Transmits(w, x) then
            && s.sendBuffer.data[s.sendBuffer.pos].off < U64
            && t.sentPkt == s.sentPkt + [s.sendBuffer.data[s.sendBuffer.pos].off]
          else t.sentPkt == s.sentPkt)
  {
    InvParts(w);
    SendASender(w, out);
    hide Inv, StreamInv, TxInv, SafeInv, Step, SenderState.SendElictAck, SenderState.SendApplication, SenderState.CanSend, ConnState.WritePktType;
    var s, got, tail := w.a.snd, w.b.rcv.recvDic, out[HEADER_LENGTH..];
    if w.a.WritePktType().1 == Ok(Application) {
      ApplicationTransmits(s, w.created, got, tail);
    } else if w.a.WritePktType().1 == Ok(ElictAck) {
      ResetCount(s, w.created, got);
      ElictSafe(s.(sentCount := 0), w.created, got, tail);
    }
  }

  lemma ApplicationTransmits(s: SenderState, created: seq<RangeBuf>, got: map<Word, Byte>, out: seq<Byte>)
    requires StreamInv(s, created) && TxInv(s, created) && SafeInv(s, created, got)
    requires |out| >= S.SEND_BUFFER_SIZE && s.CanSend()
    ensures var b, t := s.sendBuffer, s.SendApplication(out).state;
      && t.ranking == s.ranking
      && (if Sendable(b) then b.data[b.pos].off < U64 && t.sentPkt == s.sentPkt + [b.data[b.pos].off]
          else t.sentPkt == s.sentPkt)
      && t.sendBuffer.data == b.data && t.sendBuffer.offsetRecv == b.offsetRecv
  {
    EmitUnread(s, created, out);
    if Sendable(s.sendBuffer) {
      TransmitSafe(s, created, got, out);
    }
  }

  lemma BudgetsOf(w: World)
    requires Inv(w)
    ensures Budgets(w.a.snd.sentPkt, w.a.snd.sentDic, w.a.snd.ranking)
  {
  }

  /** One more transmission of a chunk stays within its budget exactly when its entry is not 0. */
  lemma SpendIff(s: SenderState, t: SenderState, off: Word, o: nat)
    requires Budgets(s.sentPkt, s.sentDic, s.ranking) && Within(s, o)
    requires t.sentPkt == s.sentPkt + [off] && t.ranking == s.ranking
    ensures Within(t, o) <==> !(off == o && o in s.sentDic && s.sentDic[o] == 0)
  {
    CountSnoc(s.sentPkt, off, o);
    hide Count, Prio;
    if off == o && o in s.sentDic {
      LeftExact(Prio(s.ranking, o), Count(s.sentPkt, o));
    }
  }

  /** From a state in which a chunk is within its budget, a step takes it out of it exactly when it
      transmits that chunk on an empty entry. */
  lemma BudgetStepAt(w: World, x: Action, o: nat)
    requires Inv(w) && Enabled(w, x) && Defined(w, x) && Within(w.a.snd, o)
    ensures Within(Step(w, x).a.snd, o) <==> !OverspendsAt(w, x, o)
  {
    hide Inv, Step, Enabled, Defined, ConnState.WritePktType, Budgets;
    StepTransmits(w, x);
    BudgetsOf(w);
    var s, t := w.a.snd, Step(w, x).a.snd;
    if Transmits(w, x) {
      SpendIff(s, t, s.sendBuffer.data[s.sendBuffer.pos].off, o);
    }
  }

  lemma {:induction false} OverspentStays(w: World, xs: seq<Action>, v: World, o: nat)
    requires Inv(w) && IsRun(w, xs, v) && !Within(w.a.snd, o)
    ensures !Within(v.a.snd, o)
    decreases xs
  {
    hide Inv, Step, Enabled, Defined;
    if xs == [] {
    } else {
      StepInv(w, xs[0]);
      StepTransmits(w, xs[0]);
      CountPrefix(w.a.snd.sentPkt, Step(w, xs[0]).a.snd.sentPkt, o);
      OverspentStays(Step(w, xs[0]), xs[1..], v, o);
    }
  }

  /** Over any run, with any loss, duplication, reordering and any use of `send_all`: a chunk is sent at
      most priority plus one times if and only if it is never transmitted on an entry of 0. */
  lemma {:induction false} BudgetAtIff(w: World, xs: seq<Action>, v: World, o: nat)
    requires Inv(w) && IsRun(w, xs, v) && Within(w.a.snd, o)
    ensures Within(v.a.snd, o) <==> NeverAt(w, xs, v, o)
    decreases xs
  {
    hide Inv, Step, Enabled, Defined, Within, OverspendsAt;
    if xs == [] {
    } else {
      var u := Step(w, xs[0]);
      BudgetStepAt(w, xs[0], o);
      StepInv(w, xs[0]);
      if Within(u.a.snd, o) {
        BudgetAtIff(u, xs[1..], v, o);
      } else {
        OverspentStays(u, xs[1..], v, o);
      }
    }
  }

  lemma {:induction false} NeverAny(w: World, xs: seq<Action>, v: World, o: nat)
    requires IsRun(w, xs, v) && NeverOverspends(w, xs, v)
    ensures NeverAt(w, xs, v, o)
    decreases xs
  {
    hide Step, Enabled, Defined, ConnState.WritePktType;
    if xs == [] {
    } else {
      NeverAny(Step(w, xs[0]), xs[1..], v, o);
    }
  }

  lemma WithinAll(s: SenderState)
    ensures WithinBudget(s) <==> forall o: nat :: Within(s, o)
  {
    if WithinBudget(s) {
      forall o: nat ensures Within(s, o) {
        if o !in s.sentPkt {
          assert Count(s.sentPkt, o) == 0;
        }
      }
    }
  }

  /** All chunks together: a step leaves the budget exactly when it transmits on an empty entry. */
  lemma BudgetStepIff(w: World, x: Action)
    requires Inv(w) && Enabled(w, x) && Defined(w, x) && WithinBudget(w.a.snd)
    ensures WithinBudget(Step(w, x).a.snd) <==> !Overspends(w, x)
  {
    hide Inv, Step, Enabled, Defined, Within, WithinBudget, ConnState.WritePktType;
    WithinAll(w.a.snd);
    WithinAll(Step(w, x).a.snd);
    forall o: nat ensures Within(Step(w, x).a.snd, o) <==> !OverspendsAt(w, x, o) {
      BudgetStepAt(w, x, o);
    }
  }

  lemma {:induction false} BudgetIff(w: World, xs: seq<Action>, v: World)
    requires Inv(w) && IsRun(w, xs, v) && WithinBudget(w.a.snd)
    ensures WithinBudget(v.a.snd) <==> NeverOverspends(w, xs, v)
    decreases xs
  {
    hide Inv, Step, Enabled, Defined, Within, WithinBudget, Overspends;
    if xs == [] {
    } else {
      var u := Step(w, xs[0]);
      BudgetStepIff(w, xs[0]);
      StepInv(w, xs[0]);
      if WithinBudget(u.a.snd) {
        BudgetIff(u, xs[1..], v);
      } else {
        WithinAll(u.a.snd);
        var o: nat :| !Within(u.a.snd, o);
        OverspentStays(u, xs[1..], v, o);
        WithinAll(v.a.snd);
      }
    }
  }

  // ------------------------------------------------------------ reports before the next round

  /** A report on every transmitted chunk of the queue was processed since its last transmission. */
  ghost predicate AllReported(w: World) {
    forall c :: c in w.a.snd.sendBuffer.data && c.off in w.a.snd.sentPkt ==> c.off in w.reported
  }

  /** Rounds are only started with all reports in. */
  ghost predicate Reported(w: World, xs: seq<Action>, v: World)
    requires IsRun(w, xs, v)
    decreases xs
  {
    xs != [] ==> (xs[0] == SendAll ==> AllReported(w)) && Reported(Step(w, xs[0]), xs[1..], v)
  }

  /** A reported chunk with no budget left is flagged. */
  ghost predicate SpentFlagged(sent: seq<Word>, r: Ranking, flags: map<nat, bool>, reported: set<Word>) {
    forall o :: o in reported && o in flags && o in sent && Count(sent, o) == Prio(r, o) + 1 ==> !flags[o]
  }

  /** Chunks the round has not reached yet can still be sent. */
  ghost predicate Affordable(cs: seq<RangeBuf>, sent: seq<Word>, r: Ranking) {
    forall c :: c in cs ==> Count(sent, c.off) <= Prio(r, c.off)
  }

  ghost predicate ReportInv(w: World) {
    var s := w.a.snd;
    && WithinBudget(s)
    && SpentFlagged(s.sentPkt, s.ranking, s.sendBuffer.offsetRecv, w.reported)
    && (!s.stopFlag ==> Affordable(s.sendBuffer.data[Front(s.sendBuffer)..], s.sentPkt, s.ranking))
  }

  /** After a write with all reports in, every queued chunk can still be sent. */
  lemma WriteAffordable(buf: S.SendState, input: seq<Byte>, window: nat, lead: nat, sent: seq<Word>, r: Ranking, reported: set<Word>)
    requires S.Valid(buf) && buf.off + |input| < U64
    requires forall o :: o in sent ==> o < buf.off && Count(sent, o) <= Prio(r, o) + 1
    requires SpentFlagged(sent, r, buf.offsetRecv, reported)
    requires forall c :: c in buf.data && c.off in sent ==> c.off in reported
    ensures buf.CanDrop()
    ensures var t := buf.Write(input, window, lead).0;
      Affordable(t.data, sent, r) && SpentFlagged(sent, r, t.offsetRecv, reported)
  {
    hide S.Carves, S.SendState.Write, S.SendState.Added, S.SendState.Accepted, S.SendState.RecvAndDrop, S.Ascending, S.KeptByOffset, S.Mark, Count, Prio;
    S.WriteKeepsValid(buf, input, window, lead);
    S.KeptMembers(buf.data, buf.offsetRecv);
    var t, added := buf.Write(input, window, lead).0, buf.Added(input, window, lead);
    AddedBeyond(buf, input, window, lead);
    forall c | c in t.data ensures Count(sent, c.off) <= Prio(r, c.off) {
      if c in added {
        assert c.off !in sent;
      } else {
        assert c in buf.data && buf.offsetRecv[c.off];
      }
    }
    forall o | o in t.offsetRecv && o in sent ensures Count(sent, o) <= Prio(r, o) {
      QueuedChunk(t, o);
    }
  }

  lemma QueuedChunk(t: S.SendState, o: nat)
    requires S.Valid(t) && o in t.offsetRecv
    ensures exists c :: c in t.data && c.off == o
  {
    S.OffsetsMember(t.data, o);
  }

  lemma AddedBeyond(buf: S.SendState, input: seq<Byte>, window: nat, lead: nat)
    requires buf.CanDrop() && buf.off + |input| < U64
    ensures forall c :: c in buf.Added(input, window, lead) ==> buf.off <= c.off
  {
    S.AddedCarves(buf, input, window, lead);
    S.CarvesPieces(buf.Added(input, window, lead), input[..buf.Accepted(input, window)], buf.off);
  }

  lemma SentBelow(s: SenderState, created: seq<RangeBuf>)
    requires StreamInv(s, created) && Known(s.sentPkt, created)
    ensures forall o :: o in s.sentPkt ==> o < s.writtenData
  {
    forall o | o in s.sentPkt ensures o < s.writtenData {
      BeginsWritten(s, created, o);
    }
  }

  lemma SendAllAffordable(s: SenderState, created: seq<RangeBuf>, reported: set<Word>)
    requires StreamInv(s, created) && Known(s.sentPkt, created) && WithinBudget(s) && s.CanSendAll()
    requires SpentFlagged(s.sentPkt, s.ranking, s.sendBuffer.offsetRecv, reported)
    requires forall c :: c in s.sendBuffer.data && c.off in s.sentPkt ==> c.off in reported
    ensures var t := s.SendAll().0;
      && t.sentPkt == s.sentPkt && t.ranking == s.ranking
      && Affordable(t.sendBuffer.data, t.sentPkt, t.ranking)
      && SpentFlagged(t.sentPkt, t.ranking, t.sendBuffer.offsetRecv, reported)
  {
    SentBelow(s, created);
    hide S.Valid, S.SendState.Write, SenderState.Window, SpentFlagged, Tiles, Among, Known;
    if |s.sendData| > s.writtenData || s.sendBuffer.data != [] {
      StreamRange(s, created);
      WriteAffordable(s.sendBuffer, s.sendData[s.writtenData..], s.Window().1, S.Lead(s.totalOffset), s.sentPkt, s.ranking, reported);
    }
  }

  lemma StreamRange(s: SenderState, created: seq<RangeBuf>)
    requires StreamInv(s, created)
    ensures s.writtenData <= |s.sendData| < U64
  {
  }

  lemma SendAllReports(w: World)
    requires Inv(w) && ReportInv(w) && Defined(w, SendAll) && AllReported(w)
    ensures ReportInv(Step(w, SendAll))
  {
    hide StreamInv, Counted, SafeInv, ToAInv, ToBInv, ReceiverInv, LogInv, WithinBudget, Affordable, SpentFlagged, SenderState.SendAll;
    var s := w.a.snd;
    SendAllAffordable(s, w.created, w.reported);
    var t := s.SendAll().0;
    SameBudget(s, t);
    TailAffordable(t.sendBuffer.data, Front(t.sendBuffer), t.sentPkt, t.ranking);
  }

  lemma TailAffordable(cs: seq<RangeBuf>, i: nat, sent: seq<Word>, r: Ranking)
    requires i <= |cs| && Affordable(cs, sent, r)
    ensures Affordable(cs[i..], sent, r)
  {
  }

  lemma SameBudget(s: SenderState, t: SenderState)
    requires WithinBudget(s) && t.sentPkt == s.sentPkt && t.ranking == s.ranking
    ensures WithinBudget(t)
  {
  }

  /** A transmission of a chunk that can be afforded. */
  lemma TransmitReports(cs: seq<RangeBuf>, i: nat, sent: seq<Word>, off: Word, r: Ranking, flags: map<nat, bool>, reported: set<Word>)
    requires S.Ascending(cs) && i < |cs| && cs[i].off == off
    requires Affordable(cs[i..], sent, r) && SpentFlagged(sent, r, flags, reported)
    requires forall o :: o in sent ==> Count(sent, o) <= Prio(r, o) + 1
    ensures Affordable(cs[i + 1..], sent + [off], r)
    ensures SpentFlagged(sent + [off], r, flags, reported - {off})
    ensures forall o :: o in sent + [off] ==> Count(sent + [off], o) <= Prio(r, o) + 1
  {
    assert cs[i] in cs[i..];
    forall o: nat ensures Count(sent + [off], o) == Count(sent, o) + (if o == off then 1 else 0) {
      CountSnoc(sent, off, o);
    }
    forall c | c in cs[i + 1..] ensures Count(sent + [off], c.off) <= Prio(r, c.off) {
      assert c in cs[i..] && c.off != off;
    }
  }

  /** What sending does to the queue: nothing but move the front by what was sent. */
  lemma SendABuffer(w: World, out: seq<Byte>)
    requires Inv(w) && Enabled(w, SendA(out)) && Defined(w, SendA(out))
    ensures var x, s, v := SendA(out), w.a.snd, Step(w, SendA(out));
      var b, t := s.sendBuffer, v.a.snd.sendBuffer;
      && S.Ascending(b.data) && t.data == b.data && t.offsetRecv == b.offsetRecv && (s.stopFlag ==> v.a.snd.stopFlag)
      && v.reported == w.reported - Transmitted(s.sentPkt, v.a.snd.sentPkt)
      && (if Transmits(w, x) then !s.stopFlag && (!v.a.snd.stopFlag ==> Front(t) == b.pos + 1) else Front(t) == Front(b))
  {
    hide Inv, StreamInv, TxInv, SafeInv, Counted, Step, Defined, SenderState.SendElictAck, SenderState.SendApplication,
      SenderState.CanSend, ConnState.WritePktType;
    InvParts(w);
    SendASender(w, out);
    var s, tail := w.a.snd, out[HEADER_LENGTH..];
    QueueAscends(s, w.created);
    if w.a.WritePktType().1 == Ok(Application) {
      EmitMoves(s, w.created, w.b.rcv.recvDic, tail);
    } else if w.a.WritePktType().1 == Ok(ElictAck) {
      ElictFields(s, tail);
    }
  }

  lemma QueueAscends(s: SenderState, created: seq<RangeBuf>)
    requires StreamInv(s, created)
    ensures S.Ascending(s.sendBuffer.data)
  {
  }

  lemma SendAReports(w: World, out: seq<Byte>)
    requires Inv(w) && ReportInv(w) && Enabled(w, SendA(out)) && Defined(w, SendA(out))
    ensures ReportInv(Step(w, SendA(out)))
  {
    hide Inv, Step, Enabled, Defined, Affordable, SpentFlagged, Count;
    var x, s, v := SendA(out), w.a.snd, Step(w, SendA(out));
    SendATransmits(w, out);
    SendABuffer(w, out);
    if Transmits(w, x) {
      var off: Word := s.sendBuffer.data[s.sendBuffer.pos].off;
      TransmitReports(s.sendBuffer.data, s.sendBuffer.pos, s.sentPkt, off, s.ranking, s.sendBuffer.offsetRecv, w.reported);
      assert Transmitted(s.sentPkt, v.a.snd.sentPkt) == {off};
      assert !v.a.snd.stopFlag ==> s.sendBuffer.data[Front(v.a.snd.sendBuffer)..] == s.sendBuffer.data[s.sendBuffer.pos + 1..];
    } else {
      assert v.reported == w.reported;
    }
  }

  /** Reports on chunks whose budget is spent flag them, so what is reported stays flagged. */
  lemma AbsorbReports(s: SenderState, ack: Word, ps: seq<Pair>, reported: set<Word>)
    requires s.Ranked(ps) && Budgets(s.sentPkt, s.sentDic, s.ranking)
    requires SpentFlagged(s.sentPkt, s.ranking, s.sendBuffer.offsetRecv, reported)
    ensures var t := s.Absorb(ack, ps);
      SpentFlagged(s.sentPkt, s.ranking, t.sendBuffer.offsetRecv, reported + Named(ps))
  {
    ProcessPairsEffect(s, ps);
    hide SenderState.ProcessPairs, SenderState.Reports, Sum, HighFn;
    var t := s.Absorb(ack, ps);
    forall o | o in reported + Named(ps) && o in t.sendBuffer.offsetRecv && o in s.sentPkt
               && Count(s.sentPkt, o) == Prio(s.ranking, o) + 1
      ensures !t.sendBuffer.offsetRecv[o]
    {
      if o !in reported {
        var p :| p in ps && p.off == o;
        LeftExact(Prio(s.ranking, o), Count(s.sentPkt, o));
        assert s.Drops(p);
      }
    }
  }

  lemma DeliverAFlags(w: World, i: nat)
    requires Inv(w) && Enabled(w, DeliverA(i)) && Defined(w, DeliverA(i))
    requires SpentFlagged(w.a.snd.sentPkt, w.a.snd.ranking, w.a.snd.sendBuffer.offsetRecv, w.reported)
    ensures var v := Step(w, DeliverA(i));
      SpentFlagged(w.a.snd.sentPkt, w.a.snd.ranking, v.a.snd.sendBuffer.offsetRecv, v.reported)
  {
    var ack, ps := DeliverASender(w, i);
    BudgetsOf(w);
    hide Inv, Step, Enabled, Defined, SenderState.Absorb, TruePair, SenderState.Ranked, SpentFlagged, Budgets;
    AbsorbReports(w.a.snd, ack, ps, w.reported);
    assert ps == [] ==> w.reported + Named(ps) == w.reported;
  }

  lemma DeliverAReports(w: World, i: nat)
    requires Inv(w) && ReportInv(w) && Enabled(w, DeliverA(i)) && Defined(w, DeliverA(i))
    ensures ReportInv(Step(w, DeliverA(i)))
  {
    DeliverAFlags(w, i);
    DeliverAFrame(w, i);
    hide Inv, Step, Enabled, Defined, SpentFlagged, Affordable;
  }

  lemma ReportStep(w: World, x: Action)
    requires Inv(w) && ReportInv(w) && Enabled(w, x) && Defined(w, x)
    requires x == SendAll ==> AllReported(w)
    ensures ReportInv(Step(w, x))
    ensures !Overspends(w, x)
  {
    hide Inv, AllReported, ReportInv;
    ReportedAffords(w, x);
    match x
    case SendAll => SendAllReports(w);
    case SendA(out) => SendAReports(w, out);
    case DeliverA(i) => DeliverAReports(w, i);
    case _ => SameReports(w, Step(w, x));
  }

  lemma SameReports(w: World, v: World)
    requires ReportInv(w) && v.a == w.a && v.reported == w.reported
    ensures ReportInv(v)
  {
  }

  /** A chunk the round may still send has budget left. */
  lemma ReportedAffords(w: World, x: Action)
    requires Inv(w) && ReportInv(w)
    ensures !Overspends(w, x)
  {
    hide StreamInv, SafeInv, ToAInv, ToBInv, ReceiverInv, LogInv, Counted, Known, SpentFlagged, WithinBudget;
    var s := w.a.snd;
    if Overspends(w, x) {
      var b := s.sendBuffer;
      assert !s.stopFlag;
      var c := b.data[b.pos];
      assert c in b.data[b.pos..];
      SpentBudget(Prio(s.ranking, c.off), Count(s.sentPkt, c.off));
      assert false;
    }
  }

  /** Conservation over runs: if rounds are only started with a report on every queued transmission
      processed, the decrement never underflows and the budget is never exceeded. */
  lemma {:induction false} ReportedRun(w: World, xs: seq<Action>, v: World)
    requires Inv(w) && ReportInv(w) && IsRun(w, xs, v) && Reported(w, xs, v)
    ensures Inv(v) && ReportInv(v) && NeverOverspends(w, xs, v)
    decreases xs
  {
    hide Inv, ReportInv, Overspends, AllReported, Step, Enabled, Defined;
    if xs == [] {
    } else {
      var x := xs[0];
      ReportStep(w, x);
      StepInv(w, x);
      ReportedRun(Step(w, x), xs[1..], v);
    }
  }

  /** Within budget, the entry of a transmitted offset and its transmissions add up to the budget. */
  lemma Conserved(w: World, o: Word)
    requires Inv(w) && WithinBudget(w.a.snd) && o in w.a.snd.sentPkt
    ensures var s := w.a.snd; o in s.sentDic && s.sentDic[o] + Count(s.sentPkt, o) == Prio(s.ranking, o) + 1
  {
    hide StreamInv, SafeInv, ToAInv, ToBInv, ReceiverInv, LogInv, Counted, Known;
    LeftExact(Prio(w.a.snd.ranking, o), Count(w.a.snd.sentPkt, o));
  }

  // ------------------------------------------------------------ transmissions altogether

  /** The transmissions all budgets together allow. */
  ghost function Allowance(cs: seq<RangeBuf>, r: Ranking): nat {
    if cs == [] then 0 else Allowance(cs[..|cs| - 1], r) + Prio(r, cs[|cs| - 1].off) + 1
  }

  function Without(s: seq<Word>, o: nat): seq<Word> {
    if s == [] then []
    else Without(s[..|s| - 1], o) + (if s[|s| - 1] == o then [] else [s[|s| - 1]])
  }

  lemma {:induction false} WithoutCounts(s: seq<Word>, o: nat, p: nat)
    ensures |s| == |Without(s, o)| + Count(s, o)
    ensures Count(Without(s, o), p) == if p == o then 0 else Count(s, p)
  {
    if s == [] {
    } else {
      var k := |s| - 1;
      var before := Without(s[..k], o);
      WithoutCounts(s[..k], o, p);
      if s[k] == o {
        assert Without(s, o) == before;
      } else {
        assert Without(s, o) == before + [s[k]];
        CountSnoc(before, s[k], p);
      }
    }
  }

  /** Transmissions of chunks at different offsets, each within its budget, add up to no more. */
  lemma {:induction false} WithinAllowance(s: seq<Word>, cs: seq<RangeBuf>, r: Ranking)
    requires forall o :: o in s ==> Begins(cs, o)
    requires forall o :: o in s ==> Count(s, o) <= Prio(r, o) + 1
    ensures |s| <= Allowance(cs, r)
    decreases cs
  {
    assert s != [] ==> s[0] in s && Begins(cs, s[0]);
    if cs == [] {
    } else {
      var k := |cs| - 1;
      var off := cs[k].off;
      var rest := Without(s, off);
      WithoutCounts(s, off, off);
      hide Count, Prio, Without, Begins;
      forall o | o in rest ensures Begins(cs[..k], o) && Count(rest, o) <= Prio(r, o) + 1 {
        WithoutCounts(s, off, o);
        assert o in s && o != off;
        BeginsEarlier(cs, o);
      }
      WithinAllowance(rest, cs[..k], r);
      if off < U64 && Count(s, off) > 0 {
        assert off in s;
      }
    }
  }

  lemma BeginsEarlier(cs: seq<RangeBuf>, o: nat)
    requires cs != [] && Begins(cs, o) && o != cs[|cs| - 1].off
    ensures Begins(cs[..|cs| - 1], o)
  {
    var c :| c in cs && c.off == o;
    assert c in cs[..|cs| - 1];
  }
}
