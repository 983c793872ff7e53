/** Bytes, 64-bit big-endian words and the error values shared by every module. */
module Bytes {

  type Byte = x: int | 0 <= x < 256

  const U64: int := 0x1_0000_0000_0000_0000

  type Word = x: int | 0 <= x < U64

  /** The size of the blocks that priorities are kept for. */
  const BLOCK: nat := 1024

  datatype Error = Done | BufferTooShort | Stopped

  datatype Result<+T> = Ok(value: T) | Err(error: Error)

  function Min(a: int, b: int): int {
    if a <= b then a else b
  }

  /** Subtraction on `u64`/`usize` in a release build: it wraps around below zero. */
  function WrappingSub(a: Word, b: Word): Word {
    if b <= a then a - b else a - b + U64
  }

  function Pow256(k: nat): (p: nat)
    ensures p > 0
  {
    if k == 0 then 1 else 256 * Pow256(k - 1)
  }

  lemma Pow256Word()
    ensures Pow256(8) == U64
  {
    assert Pow256(2) == 0x1_0000;
    assert Pow256(4) == 0x1_0000_0000;
    assert Pow256(6) == 0x1_0000_0000_0000;
  }

  /** The `k` lowest base-256 digits of `n`, most significant first. */
  function BigEndian(n: nat, k: nat): (s: seq<Byte>)
    ensures |s| == k
  {
    if k == 0 then [] else BigEndian(n / 256, k - 1) + [n % 256]
  }

  function FromBigEndian(s: seq<Byte>): (n: nat)
    ensures n < Pow256(|s|)
  {
    if s == [] then 0 else 256 * FromBigEndian(s[..|s| - 1]) + s[|s| - 1]
  }

  lemma {:induction false} BigEndianRoundTrip(n: nat, k: nat)
    requires n < Pow256(k)
    ensures FromBigEndian(BigEndian(n, k)) == n
  {
    if k == 0 {
    } else {
      BigEndianRoundTrip(n / 256, k - 1);
      var s := BigEndian(n, k);
      assert s[..k - 1] == BigEndian(n / 256, k - 1);
    }
  }

  lemma {:induction false} FromBigEndianRoundTrip(s: seq<Byte>)
    ensures BigEndian(FromBigEndian(s), |s|) == s
  {
    if s == [] {
    } else {
      var rest, last := s[..|s| - 1], s[|s| - 1];
      FromBigEndianRoundTrip(rest);
      var n := FromBigEndian(s);
      assert n / 256 == FromBigEndian(rest) && n % 256 == last;
      assert s == rest + [last];
    }
  }

  /** Two bytes shorter, two digits less. */
  lemma FromBigEndianSnoc(s: seq<Byte>, k: nat)
    requires k < |s|
    ensures FromBigEndian(s[..k + 1]) == 256 * FromBigEndian(s[..k]) + s[k]
  {
    assert s[..k + 1][..k] == s[..k];
  }

  /** The number that eight bytes stand for, the first one weighing most. */
  ghost function Spelled(s: seq<Byte>): int
    requires |s| == 8
  {
    0x100_0000_0000_0000 * s[0] as int + 0x1_0000_0000_0000 * s[1] as int + 0x100_0000_0000 * s[2] as int
    + 0x1_0000_0000 * s[3] as int + 0x100_0000 * s[4] as int + 0x1_0000 * s[5] as int + 0x100 * s[6] as int + s[7] as int
  }

  lemma {:induction false} DigitWeights(s: seq<Byte>)
    requires |s| == 8
    ensures FromBigEndian(s) == Spelled(s)
  {
    hide FromBigEndian;
    FromBigEndianEmpty();
    FromBigEndianSnoc(s, 0);
    FromBigEndianSnoc(s, 1);
    FromBigEndianSnoc(s, 2);
    FromBigEndianSnoc(s, 3);
    FromBigEndianSnoc(s, 4);
    FromBigEndianSnoc(s, 5);
    FromBigEndianSnoc(s, 6);
    FromBigEndianSnoc(s, 7);
    assert s[..8] == s && s[..0] == [];
  }

  lemma FromBigEndianEmpty()
    ensures FromBigEndian([]) == 0
  {
  }

  /** Words go out most significant byte first. */
  lemma WordBytes(w: Word)
    ensures Spelled(EncodeWord(w)) == w
  {
    Pow256Word();
    BigEndianRoundTrip(w, 8);
    DigitWeights(EncodeWord(w));
  }

  function EncodeWord(w: Word): (s: seq<Byte>)
    ensures |s| == 8
  {
    BigEndian(w, 8)
  }

  function DecodeWord(s: seq<Byte>): Word
    requires |s| == 8
  {
    Pow256Word();
    FromBigEndian(s)
  }

  lemma DecodeEncodeWord(w: Word)
    ensures DecodeWord(EncodeWord(w)) == w
  {
    Pow256Word();
    BigEndianRoundTrip(w, 8);
  }

  lemma EncodeDecodeWord(s: seq<Byte>)
    requires |s| == 8
    ensures EncodeWord(DecodeWord(s)) == s
  {
    FromBigEndianRoundTrip(s);
  }

  function EncodeWords(ws: seq<Word>): (s: seq<Byte>)
    ensures |s| == 8 * |ws|
  {
    if ws == [] then [] else EncodeWord(ws[0]) + EncodeWords(ws[1..])
  }

  function DecodeWords(s: seq<Byte>): (ws: seq<Word>)
    requires |s| % 8 == 0
    ensures |s| == 8 * |ws|
  {
    if s == [] then [] else [DecodeWord(s[..8])] + DecodeWords(s[8..])
  }

  lemma {:induction false} DecodeEncodeWords(ws: seq<Word>)
    ensures DecodeWords(EncodeWords(ws)) == ws
  {
    if ws == [] {
    } else {
      var s := EncodeWords(ws);
      DecodeEncodeWord(ws[0]);
      DecodeEncodeWords(ws[1..]);
      assert s[..8] == EncodeWord(ws[0]) && s[8..] == EncodeWords(ws[1..]);
    }
  }

  /** Reading the word at byte position `8 * i` is reading the `i`-th decoded word. */
  lemma {:induction false} DecodeWordsAt(s: seq<Byte>, i: nat)
    requires |s| % 8 == 0 && 8 * i + 8 <= |s|
    ensures DecodeWords(s)[i] == DecodeWord(s[8 * i..8 * i + 8])
  {
    if i == 0 {
    } else {
      DecodeWordsAt(s[8..], i - 1);
      assert s[8..][8 * (i - 1)..8 * (i - 1) + 8] == s[8 * i..8 * i + 8];
    }
  }

  lemma {:induction false} EncodeWordsAppend(a: seq<Word>, b: seq<Word>)
    ensures EncodeWords(a + b) == EncodeWords(a) + EncodeWords(b)
  {
    if a == [] {
      assert a + b == b;
    } else {
      assert (a + b)[1..] == a[1..] + b;
      EncodeWordsAppend(a[1..], b);
    }
  }

  /** `s` with the bytes from position `at` on overwritten by `t`. */
  function Splice(s: seq<Byte>, at: nat, t: seq<Byte>): (r: seq<Byte>)
    requires at + |t| <= |s|
    ensures |r| == |s|
    ensures r[..at + |t|] == s[..at] + t && r[at + |t|..] == s[at + |t|..]
  {
    s[..at] + t + s[at + |t|..]
  }

  lemma SpliceTwice(s: seq<Byte>, at: nat, t: seq<Byte>, u: seq<Byte>)
    requires at + |t| + |u| <= |s|
    ensures Splice(Splice(s, at, t), at + |t|, u) == Splice(s, at, t + u)
  {
    assert Splice(s, at, t)[at + |t| + |u|..] == s[at + |t| + |u|..];
  }

  method CopyFromSlice(out: array<Byte>, at: nat, src: seq<Byte>)
    requires at + |src| <= out.Length
    modifies out
    ensures out[..] == Splice(old(out[..]), at, src)
    ensures out[..at] == old(out[..at]) && out[at..] == src + old(out[at..])[|src|..]
  {
    forall i | 0 <= i < |src| {
      out[at + i] := src[i];
    }
    assert old(out[at..])[|src|..] == old(out[at + |src|..]);
  }
}
