/** Quotients and remainders by a symbolic width, and the wrapping pointers of a ring. */
module Modular {

  function Quot(a: nat, w: nat): nat
    requires w > 0
  {
    a / w
  }

  function Rem(a: nat, w: nat): (r: nat)
    requires w > 0
    ensures r < w && r <= a
    ensures a == w * Quot(a, w) + r
  {
    a % w
  }

  lemma Divided(a: nat, w: nat, q: nat, r: nat)
    requires r < w && a == w * q + r
    ensures Quot(a, w) == q && Rem(a, w) == r
  {
    hide Quot, Rem;
    var q', r' := Quot(a, w), Rem(a, w);
    Apart(w, q, q', r, r');
    Apart(w, q', q, r', r);
  }

  lemma Apart(w: nat, q: nat, q': nat, r: nat, r': nat)
    requires r < w && r' < w && w * q + r == w * q' + r'
    ensures q <= q'
  {
    var d := q - q' - 1;
    assert w * (q' + 1 + d) == w * q' + w + w * d;
    if d >= 0 {
      Product(w, d);
      assert false;
    }
  }

  lemma Product(a: nat, b: nat)
    ensures a * b >= 0
  {
  }

  /** A counter value as a pointer word of `M` values. */
  function Word(x: nat, M: nat): (p: nat)
    requires M > 0
    ensures p < M
  {
    Rem(x, M)
  }

  /** Pointer addition and subtraction, cut to the word. */
  function Plus(p: nat, n: nat, M: nat): (r: nat)
    requires M > 0
    ensures r < M
  {
    Rem(p + n, M)
  }

  function Minus(p: nat, q: nat, M: nat): (r: nat)
    requires M > 0 && q <= M
    ensures r < M
  {
    Rem(p + M - q, M)
  }

  lemma Small(x: nat, M: nat)
    requires x < M
    ensures Word(x, M) == x
  {
    assert M * 0 == 0;
    Divided(x, M, 0, x);
  }

  /** Adding to a pointer word is adding to the counter. */
  lemma PlusWord(x: nat, n: nat, M: nat)
    requires M > 0
    ensures Plus(Word(x, M), n, M) == Word(x + n, M)
  {
    hide Quot, Rem;
    var q, r := Quot(x, M), Rem(x, M);
    var q1, r1 := Quot(r + n, M), Rem(r + n, M);
    assert M * (q + q1) == M * q + M * q1;
    Divided(x + n, M, q + q1, r1);
  }

  /** A lap later the word is the same. */
  lemma LapWord(x: nat, M: nat)
    requires M > 0
    ensures Word(x + M, M) == Word(x, M)
  {
    hide Quot, Rem;
    var q := Quot(x, M);
    assert M * (q + 1) == M * q + M;
    Divided(x + M, M, q + 1, Rem(x, M));
  }

  lemma QuotStep(x: nat, y: nat, M: nat)
    requires M > 0 && y <= x < y + M
    ensures Quot(x, M) == Quot(y, M) || Quot(x, M) == Quot(y, M) + 1
  {
    hide Quot, Rem;
    var q, r := Quot(y, M), Rem(y, M);
    var d := r + (x - y);
    if d < M {
      Divided(x, M, q, d);
    } else {
      assert M * (q + 1) == M * q + M;
      Divided(x, M, q + 1, d - M);
    }
  }

  /** Subtracting pointer words gives the distance of counters less than a word apart. */
  lemma MinusWord(x: nat, y: nat, M: nat)
    requires M > 0 && y <= x < y + M
    ensures Minus(Word(x, M), Word(y, M), M) == x - y
  {
    hide Quot, Rem;
    QuotStep(x, y, M);
    var q, d := Quot(y, M), x - y;
    assert M * (q + 1) == M * q + M;
    assert M * 0 == 0 && M * 1 == M;
    if Quot(x, M) == q {
      Divided(d + M, M, 1, d);
    } else {
      Divided(d, M, 0, d);
    }
  }

  /** Counters less than a word apart with the same word are equal. */
  lemma SameWord(x: nat, y: nat, M: nat)
    requires M > 0 && y <= x < y + M && Word(x, M) == Word(y, M)
    ensures x == y
  {
    hide Quot, Rem;
    QuotStep(x, y, M);
    var q := Quot(y, M);
    assert M * (q + 1) == M * q + M;
  }
}
