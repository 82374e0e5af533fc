/** Numbers as strings of bits, and strings of bits cut back into numbers. */
module BitStrings {

  // ---------- powers of two and bit strings ----------

  function Pow2(k: nat): (p: nat)
    ensures p >= 1
  {
    if k == 0 then 1 else 2 * Pow2(k - 1)
  }

  /** The low `n` bits of `v`, most significant first. */
  function Bits(v: nat, n: nat): (bits: seq<bool>)
    ensures |bits| == n
  {
    if n == 0 then [] else Bits(v / 2, n - 1) + [v % 2 == 1]
  }

  function Value(bits: seq<bool>): (v: nat)
    ensures v < Pow2(|bits|)
  {
    if bits == [] then 0
    else 2 * Value(bits[..|bits| - 1]) + if bits[|bits| - 1] then 1 else 0
  }

  /** How many bits a symbol or a byte has. */
  datatype Width = Five | Eight

  function Size(w: Width): (n: nat)
    ensures n == 5 || n == 8
  {
    if w == Five then 5 else 8
  }

  function Times(w: Width, n: nat): nat {
    if w == Five then 5 * n else 8 * n
  }

  /** Numbers of one width, as one string of bits. */
  function Stream(w: Width, xs: seq<nat>): (bits: seq<bool>)
    ensures |bits| == Times(w, |xs|)
  {
    if xs == [] then [] else Bits(xs[0], Size(w)) + Stream(w, xs[1..])
  }

  /** A string of bits cut into numbers of one width; what is left over is dropped. */
  function Pack(w: Width, bits: seq<bool>): (xs: seq<nat>)
    ensures Times(w, |xs|) <= |bits| < Times(w, |xs| + 1)
    ensures forall i :: 0 <= i < |xs| ==> xs[i] < Pow2(Size(w))
  {
    if |bits| < Size(w) then []
    else [Value(bits[..Size(w)])] + Pack(w, bits[Size(w)..])
  }

  lemma {:induction false} ValueBits(v: nat, n: nat)
    requires v < Pow2(n)
    ensures Value(Bits(v, n)) == v
  {
    if n > 0 {
      ValueBits(v / 2, n - 1);
      assert Bits(v, n)[..n - 1] == Bits(v / 2, n - 1);
    }
  }

  lemma {:induction false} BitsValue(bits: seq<bool>)
    ensures Bits(Value(bits), |bits|) == bits
  {
    if bits != [] {
      var init := bits[..|bits| - 1];
      BitsValue(init);
      assert Value(bits) / 2 == Value(init);
      assert bits == init + [bits[|bits| - 1]];
    }
  }

  lemma {:induction false} ValueConcat(a: seq<bool>, c: seq<bool>)
    ensures Value(a + c) == Value(a) * Pow2(|c|) + Value(c)
  {
    if c == [] {
      assert a + c == a;
    } else {
      var init := c[..|c| - 1];
      ValueConcat(a, init);
      ValueStep(a + init, c[|c| - 1]);
      ValueStep(init, c[|c| - 1]);
      assert a + c == (a + init) + [c[|c| - 1]] && c == init + [c[|c| - 1]];
      Doubled(Value(a), Pow2(|init|), Value(init), Value([c[|c| - 1]]));
    }
  }

  lemma ValueStep(bits: seq<bool>, bit: bool)
    ensures Value(bits + [bit]) == 2 * Value(bits) + Value([bit])
  {
  }

  lemma Doubled(x: nat, p: nat, y: nat, z: nat)
    ensures 2 * (x * p + y) + z == x * (2 * p) + (2 * y + z)
  {
  }

  lemma Assoc<T>(a: seq<T>, c: seq<T>, d: seq<T>)
    ensures (a + c) + d == a + (c + d)
  {
  }

  lemma StreamCons(w: Width, x: nat, xs: seq<nat>)
    ensures Stream(w, [x] + xs) == Bits(x, Size(w)) + Stream(w, xs)
  {
  }

  lemma {:induction false} StreamConcat(w: Width, xs: seq<nat>, ys: seq<nat>)
    ensures Stream(w, xs + ys) == Stream(w, xs) + Stream(w, ys)
  {
    if xs == [] {
      assert xs + ys == ys;
    } else {
      var x, rest := xs[0], xs[1..];
      StreamConcat(w, rest, ys);
      StreamCons(w, x, rest + ys);
      StreamCons(w, x, rest);
      Assoc([x], rest, ys);
      Assoc(Bits(x, Size(w)), Stream(w, rest), Stream(w, ys));
      assert xs == [x] + rest;
    }
  }

  /** Cutting the bits of some numbers gives the numbers back, whatever short tail follows. */
  lemma {:induction false} PackStream(w: Width, xs: seq<nat>, tail: seq<bool>)
    requires forall i :: 0 <= i < |xs| ==> xs[i] < Pow2(Size(w))
    requires |tail| < Size(w)
    ensures Pack(w, Stream(w, xs) + tail) == xs
  {
    if xs == [] {
      assert Stream(w, xs) + tail == tail;
    } else {
      var x, rest := xs[0], xs[1..];
      var head := Bits(x, Size(w));
      PackStream(w, rest, tail);
      StreamCons(w, x, rest);
      Assoc(head, Stream(w, rest), tail);
      PackStep(w, head, Stream(w, rest) + tail);
      ValueBits(x, Size(w));
      assert xs == [x] + rest;
    }
  }

  lemma PackStep(w: Width, head: seq<bool>, rest: seq<bool>)
    requires |head| == Size(w)
    ensures Pack(w, head + rest) == [Value(head)] + Pack(w, rest)
  {
  }

  /** The bits of the numbers cut from a string are that string, up to the dropped tail. */
  lemma {:induction false} StreamPack(w: Width, bits: seq<bool>)
    ensures |Stream(w, Pack(w, bits))| <= |bits|
    ensures Stream(w, Pack(w, bits)) == bits[..|Stream(w, Pack(w, bits))|]
  {
    if |bits| >= Size(w) {
      var rest := bits[Size(w)..];
      StreamPack(w, rest);
      BitsValue(bits[..Size(w)]);
      assert Pack(w, bits)[1..] == Pack(w, rest);
    }
  }

  /** Nothing is dropped when the string divides evenly. */
  lemma StreamPackWhole(w: Width, bits: seq<bool>, n: nat)
    requires |bits| == Times(w, n)
    ensures Stream(w, Pack(w, bits)) == bits
  {
    StreamPack(w, bits);
    assert |Pack(w, bits)| == n;
  }

  function Zeros(n: nat): (bits: seq<bool>)
    ensures |bits| == n
  {
    seq(n, i => false)
  }

  lemma {:induction false} BitsOfZero(n: nat)
    ensures Bits(0, n) == Zeros(n)
  {
    if n > 0 {
      BitsOfZero(n - 1);
      assert Zeros(n) == Zeros(n - 1) + [false];
    }
  }

  lemma Powers()
    ensures Pow2(0) == 1 && Pow2(1) == 2 && Pow2(2) == 4 && Pow2(3) == 8 && Pow2(4) == 16
    ensures Pow2(5) == 32 && Pow2(6) == 64 && Pow2(7) == 128 && Pow2(8) == 256 && Pow2(9) == 512
    ensures Pow2(10) == 1024 && Pow2(11) == 2048 && Pow2(12) == 4096
  {
  }

  // ---------- shifts and masks of a 16-bit machine word ----------

  type Word = x: nat | x < 0x1_0000

  function ShiftLeft(x: Word, k: nat): Word {
    if k == 0 then x else 2 * ShiftLeft(x, k - 1) % 0x1_0000
  }

  function ShiftRight(x: Word, k: nat): (r: Word)
    ensures r <= x
  {
    if k == 0 then x else ShiftRight(x / 2, k - 1)
  }

  /** `x & ((1 << k) - 1)` */
  function Low(x: Word, k: nat): (r: Word)
    ensures r <= x && r < Pow2(k)
  {
    if k == 0 then 0 else 2 * Low(x / 2, k - 1) + x % 2
  }

  /** While the lengths together fit the word, shifting left loses no bit, and a number that fits
      the cleared bits goes in below. */
  lemma {:induction false} BitsShiftLeft(x: Word, n: nat, k: nat, v: nat)
    requires Pow2(n + k) <= 0x1_0000 && x < Pow2(n) && v < Pow2(k)
    ensures ShiftLeft(x, k) + v < Pow2(n + k)
    ensures Bits(ShiftLeft(x, k) + v, n + k) == Bits(x, n) + Bits(v, k)
  {
    if k == 0 {
      assert Bits(x, n) + Bits(v, 0) == Bits(x, n);
    } else {
      BitsShiftLeft(x, n, k - 1, v / 2);
      DoubleFits(ShiftLeft(x, k - 1), v, Pow2(n + k - 1));
      assert Bits(v, k) == Bits(v / 2, k - 1) + [v % 2 == 1];
      Assoc(Bits(x, n), Bits(v / 2, k - 1), [v % 2 == 1]);
    }
  }

  lemma DoubleFits(x: nat, v: nat, p: nat)
    requires x + v / 2 < p && 2 * p <= 0x1_0000
    ensures 2 * x % 0x1_0000 == 2 * x && 2 * x + v < 2 * p
    ensures (2 * x + v) / 2 == x + v / 2 && (2 * x + v) % 2 == v % 2
  {
  }

  lemma PowFits(k: nat)
    requires k <= 12
    ensures Pow2(k) <= 4096
  {
    PowGrows(k, 12);
    Powers();
  }

  lemma {:induction false} PowGrows(k: nat, m: nat)
    requires k <= m
    ensures Pow2(k) <= Pow2(m)
  {
    if k < m {
      PowGrows(k, m - 1);
    }
  }

  lemma {:induction false} BitsShiftRight(x: Word, k: nat, m: nat)
    ensures Bits(x, k + m) == Bits(ShiftRight(x, m), k) + Bits(x, m)
  {
    if m == 0 {
      assert Bits(x, k) + Bits(x, 0) == Bits(x, k);
    } else {
      BitsShiftRight(x / 2, k, m - 1);
    }
  }

  lemma {:induction false} BitsLow(x: Word, n: nat)
    ensures Bits(Low(x, n), n) == Bits(x, n)
  {
    if n > 0 {
      BitsLow(x / 2, n - 1);
    }
  }

  lemma {:induction false} ShiftRightSmall(x: Word, n: nat, k: nat)
    requires x < Pow2(n + k)
    ensures ShiftRight(x, k) < Pow2(n)
  {
    if k > 0 {
      ShiftRightSmall(x / 2, n, k - 1);
    }
  }
}
