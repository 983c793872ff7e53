/** Block norms, the two split points and the priority of an offset. Floats are reals. */
module Priority {
  import opened Bytes

  /** Norms of the 1024-byte blocks and the thresholds between priorities 1, 2 and 3. */
  datatype Ranking = Ranking(norms: seq<real>, low: real, high: real)
  {
    /** The source indexes the norm vector without a check. */
    predicate Has(off: nat) {
      off / BLOCK < |norms|
    }

    function Priority(off: nat): (p: Byte)
      requires Has(off)
      ensures 1 <= p <= 3
    {
      var norm := norms[off / BLOCK];
      if norm < low then 1 else if norm < high then 2 else 3
    }
  }

  // ------------------------------------------------------------ sorting the norms

  ghost predicate Ascends(s: seq<real>) {
    forall i, j :: 0 <= i < j < |s| ==> s[i] <= s[j]
  }

  function Insert(x: real, s: seq<real>): (r: seq<real>)
    ensures |r| == |s| + 1
  {
    if s == [] then [x]
    else if x <= s[0] then [x] + s
    else [s[0]] + Insert(x, s[1..])
  }

  function Sorted(s: seq<real>): (r: seq<real>)
    ensures |r| == |s|
  {
    if s == [] then [] else Insert(s[0], Sorted(s[1..]))
  }

  ghost predicate AtLeast(s: seq<real>, x: real) {
    forall i :: 0 <= i < |s| ==> x <= s[i]
  }

  lemma {:induction false} InsertAtLeast(x: real, s: seq<real>, b: real)
    requires AtLeast(s, b) && b <= x
    ensures AtLeast(Insert(x, s), b)
  {
    if s == [] || x <= s[0] {
    } else {
      InsertAtLeast(x, s[1..], b);
    }
  }

  lemma PrependAscends(x: real, s: seq<real>)
    requires Ascends(s) && AtLeast(s, x)
    ensures Ascends([x] + s)
  {
  }

  lemma {:induction false} InsertAscends(x: real, s: seq<real>)
    requires Ascends(s)
    ensures Ascends(Insert(x, s))
  {
    if s == [] {
    } else {
      if x <= s[0] {
        PrependAscends(x, s);
      } else {
        InsertAscends(x, s[1..]);
        InsertAtLeast(x, s[1..], s[0]);
        PrependAscends(s[0], Insert(x, s[1..]));
      }
    }
  }

  lemma {:induction false} InsertPermutes(x: real, s: seq<real>)
    ensures multiset(Insert(x, s)) == multiset{x} + multiset(s)
  {
    if s == [] || x <= s[0] {
    } else {
      InsertPermutes(x, s[1..]);
      assert s == [s[0]] + s[1..];
    }
  }

  /** The sorted list is ascending and a permutation of the input. */
  lemma {:induction false} SortedAscends(s: seq<real>)
    ensures Ascends(Sorted(s)) && multiset(Sorted(s)) == multiset(s)
  {
    if s == [] {
    } else {
      SortedAscends(s[1..]);
      InsertAscends(s[0], Sorted(s[1..]));
      InsertPermutes(s[0], Sorted(s[1..]));
      assert s == [s[0]] + s[1..];
    }
  }

  /** `data_send` ranks the blocks by the norms at positions 3n/10 and 7n/10 of the sorted list. */
  function Rank(norms: seq<real>): Ranking
    requires norms != []
  {
    var t := Sorted(norms);
    Ranking(norms, t[|t| * 3 / 10], t[|t| * 7 / 10])
  }

  // ------------------------------------------------------------ quantiles

  function CountIf(s: seq<real>, f: real -> bool): (n: nat)
    ensures n <= |s|
  {
    if s == [] then 0 else (if f(s[0]) then 1 else 0) + CountIf(s[1..], f)
  }

  function Below(x: real): real -> bool {
    (y: real) => y < x
  }

  function AtMost(x: real): real -> bool {
    (y: real) => y <= x
  }

  lemma {:induction false} CountAppend(a: seq<real>, b: seq<real>, f: real -> bool)
    ensures CountIf(a + b, f) == CountIf(a, f) + CountIf(b, f)
  {
    if a == [] {
      assert a + b == b;
    } else {
      assert (a + b)[1..] == a[1..] + b;
      CountAppend(a[1..], b, f);
    }
  }

  lemma {:induction false} CountInsert(y: real, s: seq<real>, f: real -> bool)
    ensures CountIf(Insert(y, s), f) == CountIf(s, f) + (if f(y) then 1 else 0)
  {
    if s == [] {
      assert [y][1..] == [];
    } else if y <= s[0] {
      assert ([y] + s)[1..] == s;
    } else {
      CountInsert(y, s[1..], f);
      assert ([s[0]] + Insert(y, s[1..]))[1..] == Insert(y, s[1..]);
    }
  }

  lemma {:induction false} CountSorted(s: seq<real>, f: real -> bool)
    ensures CountIf(Sorted(s), f) == CountIf(s, f)
  {
    if s == [] {
    } else {
      CountSorted(s[1..], f);
      CountInsert(s[0], Sorted(s[1..]), f);
    }
  }

  lemma {:induction false} CountNone(s: seq<real>, f: real -> bool)
    requires forall i :: 0 <= i < |s| ==> !f(s[i])
    ensures CountIf(s, f) == 0
  {
    if s == [] {
    } else {
      CountNone(s[1..], f);
    }
  }

  lemma {:induction false} CountAll(s: seq<real>, f: real -> bool)
    requires forall i :: 0 <= i < |s| ==> f(s[i])
    ensures CountIf(s, f) == |s|
  {
    if s == [] {
    } else {
      CountAll(s[1..], f);
    }
  }

  /** At most `k` norms are smaller than the `k`-th smallest one, and more than `k` are not larger. */
  lemma RankOfSorted(s: seq<real>, k: nat)
    requires k < |s|
    ensures var x := Sorted(s)[k];
      x in s && CountIf(s, Below(x)) <= k < CountIf(s, AtMost(x))
  {
    SortedAscends(s);
    var t := Sorted(s);
    hide Sorted, CountIf;
    var x := t[k];
    assert x in multiset(t) && x in multiset(s);
    CountSorted(s, Below(x));
    CountSorted(s, AtMost(x));
    RankOfAscending(t, k);
  }

  lemma RankOfAscending(t: seq<real>, k: nat)
    requires Ascends(t) && k < |t|
    ensures CountIf(t, Below(t[k])) <= k < CountIf(t, AtMost(t[k]))
  {
    hide CountIf;
    var x := t[k];
    assert t == t[..k] + t[k..];
    CountAppend(t[..k], t[k..], Below(x));
    CountNone(t[k..], Below(x));
    assert t == t[..k + 1] + t[k + 1..];
    CountAppend(t[..k + 1], t[k + 1..], AtMost(x));
    CountAll(t[..k + 1], AtMost(x));
  }

  /** The number of blocks whose priority is at most `p`. */
  function BlocksUpTo(r: Ranking, p: nat, n: nat): nat
    requires n <= |r.norms|
  {
    if n == 0 then 0
    else BlocksUpTo(r, p, n - 1) + (if r.Priority((n - 1) * BLOCK) <= p then 1 else 0)
  }

  lemma {:induction false} BlocksCount(r: Ranking, p: nat, n: nat)
    requires n <= |r.norms| && r.low <= r.high && 1 <= p <= 2
    ensures BlocksUpTo(r, p, n) == CountIf(r.norms[..n], Below(if p == 1 then r.low else r.high))
  {
    if n == 0 {
    } else {
      BlocksCount(r, p, n - 1);
      var x := if p == 1 then r.low else r.high;
      assert r.norms[..n] == r.norms[..n - 1] + [r.norms[n - 1]];
      CountAppend(r.norms[..n - 1], [r.norms[n - 1]], Below(x));
      assert [r.norms[n - 1]][1..] == [];
    }
  }

  /** The split points are norms, with at most 3n/10 and 7n/10 of the norms below them and more than that
      not above. The blocks below the first get priority 1, those below the second 1 or 2, and a block
      with a larger norm never gets a smaller priority. */
  lemma Quantiles(norms: seq<real>)
    requires norms != []
    ensures var r, n := Rank(norms), |norms|;
      && r.norms == norms && r.low <= r.high && r.low in norms && r.high in norms
      && BlocksUpTo(r, 1, n) == CountIf(norms, Below(r.low)) <= 3 * n / 10 < CountIf(norms, AtMost(r.low))
      && BlocksUpTo(r, 2, n) == CountIf(norms, Below(r.high)) <= 7 * n / 10 < CountIf(norms, AtMost(r.high))
      && (forall a: nat, b: nat :: r.Has(a) && r.Has(b) && norms[a / BLOCK] <= norms[b / BLOCK] ==> r.Priority(a) <= r.Priority(b))
  {
    hide CountIf, Sorted, BlocksUpTo;
    var r, n := Rank(norms), |norms|;
    SortedAscends(norms);
    assert n * 3 / 10 <= n * 7 / 10 < n;
    assert norms[..n] == norms;
    BlocksCount(r, 1, n);
    BlocksCount(r, 2, n);
    RankOfSorted(norms, n * 3 / 10);
    RankOfSorted(norms, n * 7 / 10);
  }

  // ------------------------------------------------------------ the norms of one part

  /** One parsed float: its value and its four bytes. */
  datatype Item = Item(value: real, bytes: seq<Byte>)

  ghost predicate FourBytes(items: seq<Item>) {
    forall i :: 0 <= i < |items| ==> |items[i].bytes| == 4
  }

  function PartBytes(items: seq<Item>): seq<Byte> {
    if items == [] then [] else PartBytes(items[..|items| - 1]) + items[|items| - 1].bytes
  }

  function Square(x: real): real {
    x * x
  }

  /** The finished norms and the running one, after the loop has taken `items`. */
  function Scan(items: seq<Item>): (seq<real>, real) {
    if items == [] then ([], 0.0)
    else
      var k := |items| - 1;
      var (norms, running) := Scan(items[..k]);
      var next := running + Square(items[k].value);
      if (k + 1) % 256 == 255 then (norms + [next], 0.0) else (norms, next)
  }

  lemma {:induction false} ScanStep(items: seq<Item>, item: Item)
    ensures var (norms, running) := Scan(items);
      var next := running + Square(item.value);
      Scan(items + [item]) == if (|items| + 1) % 256 == 255 then (norms + [next], 0.0) else (norms, next)
    ensures PartBytes(items + [item]) == PartBytes(items) + item.bytes
  {
    var all := items + [item];
    assert all[..|items|] == items && all[|items|] == item;
  }

  ghost function SumSquares(items: seq<Item>, a: nat, b: nat): real
    requires a <= b <= |items|
  {
    if a == b then 0.0 else SumSquares(items, a, b - 1) + items[b - 1].value * items[b - 1].value
  }

  /** The first item that norm `j` counts: the norms are cut one float before the blocks. */
  function NormStart(j: nat): nat {
    if j == 0 then 0 else 256 * j - 1
  }

  lemma {:induction false} SumSquaresPrefix(items: seq<Item>, k: nat, a: nat, b: nat)
    requires a <= b <= k <= |items|
    ensures SumSquares(items[..k], a, b) == SumSquares(items, a, b)
  {
    if a >= b {
    } else {
      SumSquaresPrefix(items, k, a, b - 1);
    }
  }

  /** How many norms a part of `k` floats yields, and which floats each of them sums. */
  lemma {:induction false} ScanSums(items: seq<Item>)
    ensures var (norms, running) := Scan(items);
      && |norms| == (|items| + 1) / 256
      && NormStart(|norms|) <= |items|
      && running == SumSquares(items, NormStart(|norms|), |items|)
      && forall j :: 0 <= j < |norms| ==> 256 * j + 255 <= |items| && norms[j] == SumSquares(items, NormStart(j), 256 * j + 255)
  {
    if items == [] {
    } else {
      var k := |items| - 1;
      var prefix := items[..k];
      ScanSums(prefix);
      var (norms, running) := Scan(prefix);
      NextNorm(k);
      SumSquaresPrefix(items, k, NormStart(|norms|), k);
      SumSquaresLast(items, NormStart(|norms|));
      forall j | 0 <= j < |norms| ensures norms[j] == SumSquares(items, NormStart(j), 256 * j + 255) {
        SumSquaresPrefix(items, k, NormStart(j), 256 * j + 255);
      }
      hide SumSquares;
      assert SumSquares(items, |items|, |items|) == 0.0 by { NoSquares(items, |items|); }
    }
  }

  lemma SumSquaresLast(items: seq<Item>, a: nat)
    requires a < |items|
    ensures SumSquares(items, a, |items|) == SumSquares(items, a, |items| - 1) + Square(items[|items| - 1].value)
  {
  }

  lemma NoSquares(items: seq<Item>, a: nat)
    requires a <= |items|
    ensures SumSquares(items, a, a) == 0.0
  {
  }

  /** When the next float finishes a norm. */
  lemma NextNorm(k: nat)
    ensures var n := (k + 1) / 256;
      if (k + 1) % 256 == 255 then (k + 2) / 256 == n + 1 && k + 1 == NormStart(n + 1) == 256 * n + 255
      else (k + 2) / 256 == n && NormStart(n) <= k + 1
  {
  }

  lemma {:induction false} SumSquaresSplit(items: seq<Item>, a: nat, m: nat, b: nat)
    requires a <= m <= b <= |items|
    ensures SumSquares(items, a, b) == SumSquares(items, a, m) + SumSquares(items, m, b)
  {
    if m >= b {
    } else {
      SumSquaresSplit(items, a, m, b - 1);
    }
  }

  /** A part of fewer than 255 floats yields no norm at all; without any, ranking the blocks already
      reads past the empty list. */
  lemma NoNormIff(items: seq<Item>)
    ensures Scan(items).0 == [] <==> |items| < 255
  {
    ScanSums(items);
  }

  /** A norm is the norm of its own block exactly when the float that was shifted in and the one
      that was shifted out have equal squares; for the first block, when the last float is 0. */
  lemma NormOfBlockIff(items: seq<Item>, j: nat)
    requires 256 * (j + 1) <= |items|
    ensures j < |Scan(items).0|
    ensures Scan(items).0[j] == SumSquares(items, 256 * j, 256 * (j + 1)) <==>
        items[256 * j + 255].value * items[256 * j + 255].value == if j == 0 then 0.0 else items[256 * j - 1].value * items[256 * j - 1].value
  {
    ScanSums(items);
    assert SumSquares(items, 256 * j, 256 * j + 256)
        == SumSquares(items, 256 * j, 256 * j + 255) + items[256 * j + 255].value * items[256 * j + 255].value;
    if j > 0 {
      SumSquaresSplit(items, 256 * j - 1, 256 * j, 256 * j + 255);
      assert SumSquares(items, 256 * j - 1, 256 * j) == items[256 * j - 1].value * items[256 * j - 1].value;
    }
  }

  lemma {:induction false} PartLength(items: seq<Item>)
    requires FourBytes(items)
    ensures |PartBytes(items)| == 4 * |items|
  {
    if items == [] {
    } else {
      PartLength(items[..|items| - 1]);
    }
  }

  /** The bytes of the `i`-th float stand at position `4 * i`. */
  lemma {:induction false} PartBytesAt(items: seq<Item>, i: nat)
    requires FourBytes(items) && i < |items|
    ensures |PartBytes(items)| == 4 * |items| && PartBytes(items)[4 * i..4 * i + 4] == items[i].bytes
  {
    var k := |items| - 1;
    PartLength(items);
    PartLength(items[..k]);
    if i == k {
    } else {
      PartBytesAt(items[..k], i);
      assert PartBytes(items)[4 * i..4 * i + 4] == PartBytes(items[..k])[4 * i..4 * i + 4];
    }
  }

  lemma BlockOf(k: nat, off: nat)
    requires off < 4 * k
    ensures k % 256 == 0 || k % 256 == 255 ==> off / BLOCK < (k + 1) / 256
    ensures k % 256 != 0 && k % 256 != 255 ==> (4 * k - 1) / BLOCK >= (k + 1) / 256
  {
    var q, r := k / 256, k % 256;
    assert k == 256 * q + r;
    if r == 0 {
      assert (k + 1) / 256 == q;
    } else if r == 255 {
      assert (k + 1) / 256 == q + 1;
    } else {
      assert (k + 1) / 256 == q && (4 * k - 1) / BLOCK == q;
    }
  }

  /** Every byte of a part of `k` floats lies in a block with a norm exactly when `k` is a multiple
      of 256 or one short of it; otherwise sending the last block reads past the norm vector. */
  lemma CoveredIff(items: seq<Item>, low: real, high: real)
    requires FourBytes(items)
    ensures var r := Ranking(Scan(items).0, low, high);
      (forall off :: 0 <= off < |PartBytes(items)| ==> r.Has(off)) <==> |items| % 256 == 0 || |items| % 256 == 255
  {
    var r := Ranking(Scan(items).0, low, high);
    ScanSums(items);
    PartLength(items);
    var k := |items|;
    if k % 256 != 0 && k % 256 != 255 {
      BlockOf(k, 4 * k - 1);
      assert !r.Has(4 * k - 1);
    } else {
      forall off | 0 <= off < 4 * k ensures r.Has(off) {
        BlockOf(k, off);
      }
    }
  }

  /** The loop of `process_string` over the parsed floats of one part. */
  method ProcessPart(items: seq<Item>, sendData: seq<Byte>, norm2Vec: seq<real>)
    returns (sendData': seq<Byte>, norm2Vec': seq<real>)
    ensures sendData' == sendData + PartBytes(items)
    ensures norm2Vec' == norm2Vec + Scan(items).0
  {
    sendData', norm2Vec' := sendData, norm2Vec;
    var norm2, it := 0.0, 0;
    while it < |items|
      invariant 0 <= it <= |items|
      invariant sendData' == sendData + PartBytes(items[..it])
      invariant norm2Vec' == norm2Vec + Scan(items[..it]).0
      invariant norm2 == Scan(items[..it]).1
    {
      ghost var before := items[..it];
      var item := items[it];
      ScanStep(before, item);
      it := it + 1;
      assert items[..it] == before + [item];
      norm2 := norm2 + Square(item.value);
      sendData' := sendData' + item.bytes;
      if it % 256 == 255 {
        norm2Vec' := norm2Vec' + [norm2];
        norm2 := 0.0;
      }
    }
    assert items[..|items|] == items;
  }
}
