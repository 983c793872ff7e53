/** Congestion control: the piecewise-cubic window update, its accumulators and the rollback set. */
module Recovery {
  import opened Ordered

  const PACKET_SIZE: nat := 1200
  const INITIAL_WINDOW_PACKETS: nat := 8
  const INI_WIN: nat := 9600
  const MAX_SEND_UDP_PAYLOAD_SIZE: nat := 1350

  // ------------------------------------------------------------ the curve

  function Outer(w: real): real {
    -22.94 * (w * w * w) + 65.83 * (w * w) - 51.89 * w + 8.0
  }

  function Inner(w: real): real {
    -0.1587 * (w * w * w) - 0.4658 * (w * w) - 0.4538 * w + 0.1535
  }

  function WinAdd(w: real): real {
    (if w < 0.2 || w > 1.8 then Outer(w) else Inner(w)) * 1200.0
  }

  lemma ProductSign(a: real, b: real)
    ensures a > 0.0 && b > 0.0 ==> a * b > 0.0
    ensures a >= 0.0 && b >= 0.0 ==> a * b >= 0.0
  {
  }

  /** The second factor of `b^3 - a^3`. */
  function Quad(a: real, b: real): real {
    a * a + a * b + b * b
  }

  lemma QuadNonNegative(a: real, b: real)
    requires a >= 0.0 && b >= 0.0
    ensures Quad(a, b) >= 0.0
  {
    ProductSign(a, a);
    ProductSign(a, b);
    ProductSign(b, b);
  }

  /** By the square of `b - a` and the tangent of the parabola at `a + b == 3.6`. */
  lemma QuadAboveTangent(a: real, b: real)
    requires a <= b && 3.6 <= a + b
    ensures Quad(a, b) >= 5.4 * (a + b) - 9.72
  {
    var s := a + b;
    ProductSign(b - a, b - a);
    ProductSign(s - 3.6, s - 3.6);
    assert Quad(a, b) == 0.75 * (s * s) + 0.25 * ((b - a) * (b - a));
    assert (s - 3.6) * (s - 3.6) == s * s - 7.2 * s + 12.96;
  }

  /** `x - y` factors as a width times a slope; if both are positive, `x` is above `y`. */
  ghost predicate Factors(x: real, y: real, width: real, slope: real) {
    x - y == width * slope
  }

  lemma Above(x: real, y: real, width: real, slope: real)
    requires Factors(x, y, width, slope) && width > 0.0 && slope > 0.0
    ensures x > y
  {
    ProductSign(width, slope);
  }

  lemma OuterDifference(a: real, b: real)
    ensures Factors(Outer(a), Outer(b), b - a, 22.94 * Quad(a, b) - 65.83 * (a + b) + 51.89)
  {
    assert b * b * b - a * a * a == (b - a) * Quad(a, b);
    assert b * b - a * a == (b - a) * (a + b);
  }

  lemma InnerDifference(a: real, b: real)
    ensures Factors(Inner(a), Inner(b), b - a, 0.1587 * Quad(a, b) + 0.4658 * (a + b) + 0.4538)
  {
    assert b * b * b - a * a * a == (b - a) * Quad(a, b);
    assert b * b - a * a == (b - a) * (a + b);
  }

  lemma OuterDecreasesLow(a: real, b: real)
    requires 0.0 <= a < b <= 0.2
    ensures Outer(a) > Outer(b)
  {
    OuterDifference(a, b);
    QuadNonNegative(a, b);
    Above(Outer(a), Outer(b), b - a, 22.94 * Quad(a, b) - 65.83 * (a + b) + 51.89);
  }

  lemma OuterDecreasesHigh(a: real, b: real)
    requires 1.8 <= a < b
    ensures Outer(a) > Outer(b)
  {
    OuterDifference(a, b);
    QuadAboveTangent(a, b);
    Above(Outer(a), Outer(b), b - a, 22.94 * Quad(a, b) - 65.83 * (a + b) + 51.89);
  }

  lemma InnerDecreases(a: real, b: real)
    requires 0.0 <= a < b
    ensures Inner(a) > Inner(b)
  {
    InnerDifference(a, b);
    QuadNonNegative(a, b);
    Above(Inner(a), Inner(b), b - a, 0.1587 * Quad(a, b) + 0.4658 * (a + b) + 0.4538);
  }

  /** The update is strictly decreasing in the loss weight, also across both jumps. */
  lemma WinAddDecreases(a: real, b: real)
    requires 0.0 <= a < b
    ensures WinAdd(a) > WinAdd(b)
  {
    if a < 0.2 {
      OuterDecreasesLow(a, 0.2);
      assert Outer(0.2) > Inner(0.2);
      if b < 0.2 {
        OuterDecreasesLow(a, b);
      } else if b <= 1.8 {
        if 0.2 < b { InnerDecreases(0.2, b); }
      } else {
        InnerDecreases(0.2, 1.8);
        assert Inner(1.8) > Outer(1.8);
        OuterDecreasesHigh(1.8, b);
      }
    } else if a <= 1.8 {
      if b <= 1.8 {
        InnerDecreases(a, b);
      } else {
        if a < 1.8 { InnerDecreases(a, 1.8); }
        assert Inner(1.8) > Outer(1.8);
        OuterDecreasesHigh(1.8, b);
      }
    } else {
      OuterDecreasesHigh(a, b);
    }
  }

  /** Four points of each of the two cubics, the ends of the inner one among them. */
  lemma CurvePoints()
    ensures WinAdd(0.0) == 9600.0 && WinAdd(0.1) == 4135.632 && WinAdd(2.0) == -19176.0 && WinAdd(3.0) == -209496.0
    ensures WinAdd(0.2) == 51.40608 && WinAdd(0.5) == -251.625 && WinAdd(1.0) == -1109.76 && WinAdd(1.8) == -3717.68448
  {
    assert 0.1 * 0.1 == 0.01 && 0.2 * 0.2 == 0.04 && 0.5 * 0.5 == 0.25 && 1.8 * 1.8 == 3.24;
  }

  // ------------------------------------------------------------ the operations on values

  datatype RecoveryState = RecoveryState(
    increWin: nat, decreWin: nat, congestionWindow: nat, former: set<nat>, rollBack: bool)
  {
    function UpdateWin(weights: real, num: real): RecoveryState {
      var winadd := WinAdd(weights);
      var r := if winadd != num then this.(rollBack := true) else this;
      if winadd > 0.0 then r.(increWin := increWin + winadd.Floor)
      else r.(decreWin := decreWin + (-winadd).Floor)
    }

    function Target(): nat {
      if 2 * increWin > decreWin then 2 * increWin - decreWin else 0
    }

    function Cwnd(): (RecoveryState, nat) {
      var window := if Target() >= PACKET_SIZE * INITIAL_WINDOW_PACKETS then Target()
                    else PACKET_SIZE * INITIAL_WINDOW_PACKETS;
      (RecoveryState(0, 0, window, if rollBack then former else former + {Target()}, rollBack), window)
    }

    function Rollback(): (RecoveryState, nat) {
      if former == {} then (this.(congestionWindow := INI_WIN), INI_WIN)
      else
        var top := Last(former);
        (this.(congestionWindow := top, former := former - {top}), top)
    }
  }

  const INITIAL := RecoveryState(0, 0, MAX_SEND_UDP_PAYLOAD_SIZE * INITIAL_WINDOW_PACKETS, {}, false)

  // ------------------------------------------------------------ what the window is

  /** What the updates with positive outcome add, each cut to whole bytes. */
  function Gains(ws: seq<real>): nat {
    if ws == [] then 0
    else
      var a := WinAdd(ws[|ws| - 1]);
      Gains(ws[..|ws| - 1]) + if a > 0.0 then a.Floor else 0
  }

  /** What the others take away. */
  function Losses(ws: seq<real>): nat {
    if ws == [] then 0
    else
      var a := WinAdd(ws[|ws| - 1]);
      Losses(ws[..|ws| - 1]) + if a > 0.0 then 0 else (-a).Floor
  }

  function AtLeast(n: int, low: nat): nat {
    if n >= low then n else low
  }

  ghost predicate Deviates(ws: seq<real>, nums: seq<real>)
    requires |ws| == |nums|
  {
    exists i :: 0 <= i < |ws| && WinAdd(ws[i]) != nums[i]
  }

  /** After any list of updates the accumulators have grown by the gains and losses of that list, and the
      flag says whether some increment differed from its report count. */
  lemma {:induction false} UpdatesAdd(r: RecoveryState, ws: seq<real>, nums: seq<real>)
    requires |ws| == |nums|
    ensures var t := Updates(r, ws, nums);
      && t.increWin == r.increWin + Gains(ws) && t.decreWin == r.decreWin + Losses(ws)
      && t.former == r.former && t.congestionWindow == r.congestionWindow
      && (t.rollBack <==> r.rollBack || Deviates(ws, nums))
  {
    if ws == [] {
    } else {
      var k := |ws| - 1;
      UpdatesAdd(r, ws[..k], nums[..k]);
      hide WinAdd;
      if Deviates(ws[..k], nums[..k]) {
        var i :| 0 <= i < k && WinAdd(ws[..k][i]) != nums[..k][i];
        assert WinAdd(ws[i]) != nums[i];
      }
      if Deviates(ws, nums) && WinAdd(ws[k]) == nums[k] {
        var i :| 0 <= i < |ws| && WinAdd(ws[i]) != nums[i];
        assert WinAdd(ws[..k][i]) != nums[..k][i];
      }
    }
  }

  /** The window after any list of updates since the accumulators were last cleared: twice the gains minus
      the losses, at least 9600. The accumulators are cleared, and the value before it was raised is
      remembered unless the flag is set. */
  lemma WindowIs(r: RecoveryState, ws: seq<real>, nums: seq<real>)
    requires |ws| == |nums| && r.increWin == 0 && r.decreWin == 0
    ensures var (t, window) := Updates(r, ws, nums).Cwnd();
      var raw := 2 * Gains(ws) - Losses(ws);
      && window == t.congestionWindow == AtLeast(raw, 9600)
      && t.increWin == 0 && t.decreWin == 0
      && (t.rollBack <==> r.rollBack || Deviates(ws, nums))
      && t.former == if t.rollBack then r.former else r.former + {AtLeast(raw, 0)}
  {
    UpdatesAdd(r, ws, nums);
  }

  /** A rollback hands out and forgets the largest remembered window, or answers 9600 if there is none;
      the accumulators stay. */
  lemma RollbackIs(r: RecoveryState)
    ensures var (t, window) := r.Rollback();
      && t.increWin == r.increWin && t.decreWin == r.decreWin && t.rollBack == r.rollBack && t.congestionWindow == window
      && (r.former == {} ==> window == 9600 && t.former == {})
      && (r.former != {} ==> window in r.former && (forall f :: f in r.former ==> f <= window) && t.former == r.former - {window})
  {
  }

  // ------------------------------------------------------------ loss never helps

  ghost predicate PointwiseAtMost(ws: seq<real>, vs: seq<real>) {
    |ws| == |vs| && forall i :: 0 <= i < |ws| ==> 0.0 <= ws[i] <= vs[i]
  }

  function Updates(r: RecoveryState, ws: seq<real>, nums: seq<real>): RecoveryState
    requires |ws| == |nums|
  {
    if ws == [] then r
    else Updates(r, ws[..|ws| - 1], nums[..|ws| - 1]).UpdateWin(ws[|ws| - 1], nums[|ws| - 1])
  }

  lemma UpdateMonotone(r: RecoveryState, q: RecoveryState, w: real, v: real, m: real, n: real)
    requires r.increWin >= q.increWin && r.decreWin <= q.decreWin
    requires 0.0 <= w <= v
    ensures r.UpdateWin(w, m).increWin >= q.UpdateWin(v, n).increWin
    ensures r.UpdateWin(w, m).decreWin <= q.UpdateWin(v, n).decreWin
  {
    if w < v {
      WinAddDecreases(w, v);
    }
  }

  lemma {:induction false} UpdatesMonotone(r: RecoveryState, ws: seq<real>, vs: seq<real>, ms: seq<real>, ns: seq<real>)
    requires PointwiseAtMost(ws, vs) && |ms| == |ws| == |ns|
    ensures Updates(r, ws, ms).increWin >= Updates(r, vs, ns).increWin
    ensures Updates(r, ws, ms).decreWin <= Updates(r, vs, ns).decreWin
  {
    if ws == [] {
    } else {
      var k := |ws| - 1;
      UpdatesMonotone(r, ws[..k], vs[..k], ms[..k], ns[..k]);
      UpdateMonotone(Updates(r, ws[..k], ms[..k]), Updates(r, vs[..k], ns[..k]), ws[k], vs[k], ms[k], ns[k]);
    }
  }

  /** For any two report lists of equal length, pointwise larger weights never give a larger window. */
  lemma LossNeverHelps(r: RecoveryState, ws: seq<real>, vs: seq<real>, ms: seq<real>, ns: seq<real>)
    requires PointwiseAtMost(ws, vs) && |ms| == |ws| == |ns|
    ensures Updates(r, ws, ms).Cwnd().1 >= Updates(r, vs, ns).Cwnd().1
  {
    UpdatesMonotone(r, ws, vs, ms, ns);
  }

  // ------------------------------------------------------------ runs

  /** The priority of a chunk reported lost, or 0 for a chunk reported received. */
  type Report = x: int | 0 <= x <= 3

  function WeightOf(p: Report): real {
    if p == 1 then 0.15 else if p == 2 then 0.2 else if p == 3 then 0.25 else 0.0
  }

  function Weight(ps: seq<Report>): (w: real)
    ensures w >= 0.0
  {
    if ps == [] then 0.0 else Weight(ps[..|ps| - 1]) + WeightOf(ps[|ps| - 1])
  }

  /** One call on the recovery state; an acknowledgement is the list of its reports. */
  datatype Call = Ack(reports: seq<Report>) | TakeWindow | RollBack

  function Apply(r: RecoveryState, c: Call): (RecoveryState, nat) {
    match c
    case Ack(ps) => (r.UpdateWin(Weight(ps), |ps| as real), 0)
    case TakeWindow => r.Cwnd()
    case RollBack => r.Rollback()
  }

  function Run(r: RecoveryState, cs: seq<Call>): RecoveryState {
    if cs == [] then r else Apply(Run(r, cs[..|cs| - 1]), cs[|cs| - 1]).0
  }

  /** Acknowledgements since the window was last taken; a rollback does not restart the count. */
  function Pending(cs: seq<Call>): nat {
    if cs == [] then 0
    else match cs[|cs| - 1]
      case Ack(_) => Pending(cs[..|cs| - 1]) + 1
      case TakeWindow => 0
      case RollBack => Pending(cs[..|cs| - 1])
  }

  lemma WinAddAtMost(w: real)
    requires 0.0 <= w
    ensures WinAdd(w) <= 9600.0
    ensures WinAdd(w) == 9600.0 <==> w == 0.0
  {
    if 0.0 < w {
      WinAddDecreases(0.0, w);
    }
  }

  lemma {:induction false} IncrementBounded(cs: seq<Call>)
    ensures Run(INITIAL, cs).increWin <= 9600 * Pending(cs)
  {
    if cs == [] {
    } else {
      var k := |cs| - 1;
      IncrementBounded(cs[..k]);
      if cs[k].Ack? {
        WinAddAtMost(Weight(cs[k].reports));
      }
    }
  }

  /** The window handed out after any run lies between 9600 and 19200 bytes per pending acknowledgement. */
  lemma WindowBounds(cs: seq<Call>)
    ensures var window := Run(INITIAL, cs).Cwnd().1;
      9600 <= window <= (if Pending(cs) == 0 then 9600 else 19200 * Pending(cs))
  {
    IncrementBounded(cs);
  }

  /** The weights of the acknowledgements since the window was last taken. */
  function Since(cs: seq<Call>): seq<real> {
    if cs == [] then []
    else match cs[|cs| - 1]
      case Ack(ps) => Since(cs[..|cs| - 1]) + [Weight(ps)]
      case TakeWindow => []
      case RollBack => Since(cs[..|cs| - 1])
  }

  lemma GainsSnoc(ws: seq<real>, w: real)
    ensures var a := WinAdd(w);
      && Gains(ws + [w]) == Gains(ws) + (if a > 0.0 then a.Floor else 0)
      && Losses(ws + [w]) == Losses(ws) + (if a > 0.0 then 0 else (-a).Floor)
  {
    assert (ws + [w])[..|ws|] == ws;
  }

  lemma {:induction false} RunAccumulates(cs: seq<Call>)
    ensures Run(INITIAL, cs).increWin == Gains(Since(cs)) && Run(INITIAL, cs).decreWin == Losses(Since(cs))
  {
    if cs == [] {
    } else {
      var k := |cs| - 1;
      RunAccumulates(cs[..k]);
      if cs[k].Ack? {
        GainsSnoc(Since(cs[..k]), Weight(cs[k].reports));
      }
      hide WinAdd, Gains, Losses, Weight;
    }
  }

  /** The window after any run of updates, windows and rollbacks. */
  lemma RunWindow(cs: seq<Call>)
    ensures Run(INITIAL, cs).Cwnd().1 == AtLeast(2 * Gains(Since(cs)) - Losses(Since(cs)), 9600)
  {
    RunAccumulates(cs);
  }

  // ------------------------------------------------------------ reachable rollback windows

  function Units(ps: seq<Report>): nat {
    if ps == [] then 0
    else Units(ps[..|ps| - 1]) + (if ps[|ps| - 1] == 0 then 0 else ps[|ps| - 1] as int + 2)
  }

  lemma {:induction false} WeightInUnits(ps: seq<Report>)
    ensures Weight(ps) == Units(ps) as real * 0.05
    ensures Units(ps) == 0 || Units(ps) >= 3
    ensures Units(ps) == 0 <==> forall i :: 0 <= i < |ps| ==> ps[i] == 0
  {
    if ps == [] {
    } else {
      WeightInUnits(ps[..|ps| - 1]);
    }
  }

  /** The increment equals the report count only for 9600 reports that all say "received". */
  lemma IncrementIsCount(ps: seq<Report>)
    ensures WinAdd(Weight(ps)) == |ps| as real <==> |ps| == 9600 && forall i :: 0 <= i < |ps| ==> ps[i] == 0
  {
    WeightInUnits(ps);
    var u := Units(ps);
    if u == 0 {
      WinAddAtMost(Weight(ps));
    } else {
      if u >= 6 {
        assert WinAdd(0.3) < 0.0;
        if u > 6 { WinAddDecreases(0.3, Weight(ps)); }
      } else if u == 3 {
        assert WinAdd(0.15) == 1944.303;
        NotWhole(1944, 0.303, |ps|);
      } else if u == 4 {
        assert WinAdd(0.2) == 51.40608;
        NotWhole(51, 0.40608, |ps|);
      } else {
        assert WinAdd(0.25) == 10.149375;
        NotWhole(10, 0.149375, |ps|);
      }
    }
  }

  lemma NotWhole(n: int, f: real, m: int)
    requires 0.0 < f < 1.0
    ensures n as real + f != m as real
  {
    if m <= n {
    } else {
      assert m as real >= (n + 1) as real;
    }
  }

  /** No acknowledgement in the run carries 9600 reports; one datagram of at most 65507 bytes
      cannot hold them. */
  ghost predicate Ordinary(cs: seq<Call>) {
    forall i :: 0 <= i < |cs| && cs[i].Ack? ==> |cs[i].reports| != 9600
  }

  ghost predicate Acked(cs: seq<Call>) {
    exists i :: 0 <= i < |cs| && cs[i].Ack?
  }

  lemma {:induction false} FormerWindows(cs: seq<Call>)
    requires Ordinary(cs)
    ensures var r := Run(INITIAL, cs);
      && r.former <= {0}
      && (Acked(cs) <==> r.rollBack)
      && (!r.rollBack ==> r.increWin == 0 && r.decreWin == 0)
  {
    if cs == [] {
    } else {
      var k := |cs| - 1;
      var prefix := cs[..k];
      FormerWindows(prefix);
      assert Acked(cs) <==> Acked(prefix) || cs[k].Ack? by {
        if Acked(prefix) {
          var i :| 0 <= i < |prefix| && prefix[i].Ack?;
          assert cs[i].Ack?;
        }
        if Acked(cs) && !cs[k].Ack? {
          var i :| 0 <= i < |cs| && cs[i].Ack?;
          assert prefix[i].Ack?;
        }
      }
      if cs[k].Ack? {
        IncrementIsCount(cs[k].reports);
      }
    }
  }

  /** How many of the rollbacks in `cs`, started from `r`, answer with a window of 0. */
  function ZeroRollbacks(r: RecoveryState, cs: seq<Call>): nat {
    if cs == [] then 0
    else
      var k := |cs| - 1;
      ZeroRollbacks(r, cs[..k]) +
      (if cs[k].RollBack? && Apply(Run(r, cs[..k]), cs[k]).1 == 0 then 1 else 0)
  }

  lemma {:induction false} ZeroRollbacksBounded(r: RecoveryState, cs: seq<Call>)
    requires r.rollBack && r.former <= {0}
    ensures Run(r, cs).rollBack && Run(r, cs).former <= r.former
    ensures ZeroRollbacks(r, cs) + |Run(r, cs).former| == |r.former|
  {
    if cs == [] {
    } else {
      ZeroRollbacksBounded(r, cs[..|cs| - 1]);
    }
  }

  /** Every rollback of a run answers 0 or 9600, and once an acknowledgement has been processed
      at most one later rollback answers 0. */
  lemma RollbackWindows(cs: seq<Call>, more: seq<Call>)
    requires Ordinary(cs)
    ensures Run(INITIAL, cs).Rollback().1 in {0, INI_WIN}
    ensures Acked(cs) ==> ZeroRollbacks(Run(INITIAL, cs), more) <= 1
  {
    FormerWindows(cs);
    var r := Run(INITIAL, cs);
    assert |r.former| <= 1 by {
      if r.former != {} { assert r.former == {0}; }
    }
    if Acked(cs) {
      ZeroRollbacksBounded(r, more);
    }
  }

  // ------------------------------------------------------------ the object

  class Recovery {
    var increWin: nat
    var decreWin: nat
    var congestionWindow: nat
    var formerWinVecter: set<nat>
    var rollBackFlag: bool

    ghost function Value(): RecoveryState
      reads this
    {
      RecoveryState(increWin, decreWin, congestionWindow, formerWinVecter, rollBackFlag)
    }

    constructor ()
      ensures Value() == INITIAL
    {
      increWin, decreWin := 0, 0;
      congestionWindow := MAX_SEND_UDP_PAYLOAD_SIZE * INITIAL_WINDOW_PACKETS;
      formerWinVecter, rollBackFlag := {}, false;
    }

    method UpdateWin(weights: real, num: real)
      modifies this
      ensures Value() == old(Value()).UpdateWin(weights, num)
    {
      var winadd := WinAdd(weights);
      if winadd != num {
        rollBackFlag := true;
      }
      if winadd > 0.0 {
        increWin := increWin + winadd.Floor;
      } else {
        decreWin := decreWin + (-winadd).Floor;
      }
    }

    method Cwnd() returns (window: nat)
      modifies this
      ensures (Value(), window) == old(Value()).Cwnd()
    {
      var tmpWin := if 2 * increWin > decreWin then 2 * increWin - decreWin else 0;
      if !rollBackFlag {
        formerWinVecter := formerWinVecter + {tmpWin};
      }
      congestionWindow := tmpWin;
      increWin := 0;
      decreWin := 0;
      if congestionWindow < PACKET_SIZE * INITIAL_WINDOW_PACKETS {
        congestionWindow := PACKET_SIZE * INITIAL_WINDOW_PACKETS;
      }
      window := congestionWindow;
    }

    method Rollback() returns (window: nat)
      modifies this
      ensures (Value(), window) == old(Value()).Rollback()
    {
      if formerWinVecter == {} {
        congestionWindow := INI_WIN;
      } else {
        congestionWindow := Last(formerWinVecter);
        formerWinVecter := formerWinVecter - {congestionWindow};
      }
      window := congestionWindow;
    }
  }
}
