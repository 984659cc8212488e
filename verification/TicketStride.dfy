/**
 How folly::MPMCQueue spreads tickets over slots: ticket `t` uses slot `t * stride % capacity`
 at turn `t / capacity`, with a stride picked from a table of small primes.
 */
module TicketStride {
  import opened Modular

  // ---------------------------------------------------------------- divisibility

  predicate Divides(d: nat, n: nat)
    requires d > 0
  {
    n % d == 0
  }

  ghost predicate Coprime(a: nat, b: nat) {
    forall d: nat :: d > 0 && Divides(d, a) && Divides(d, b) ==> d == 1
  }

  lemma ZeroRest(x: int, d: int)
    requires d > 0 && x % d == 0
    ensures x == (x / d) * d
  {
  }

  /** Linear combinations of a and b that a common divisor cannot avoid. */
  lemma {:induction false} Bezout(a: nat, b: nat) returns (x: int, y: int, g: nat)
    requires a > 0
    ensures g > 0 && x * a + y * b == g && Divides(g, a) && Divides(g, b)
    decreases b
  {
    if b == 0 {
      x, y, g := 1, 0, a;
    } else {
      var x', y', g' := Bezout(b, a % b);
      var q := a / b;
      x, y, g := y', x' - q * y', g';
      assert a % b == a - q * b;
      assert x' * b + y' * (a - q * b) == y' * a + (x' - q * y') * b by {
        assert y' * (a - q * b) == y' * a - y' * (q * b);
        assert y' * (q * b) == (q * y') * b;
        assert (x' - q * y') * b == x' * b - (q * y') * b;
      }
      ZeroRest(b, g);
      ZeroRest(a % b, g);
      assert a == q * b + a % b;
      assert q * b == (q * (b / g)) * g by { assert b == (b / g) * g; }
      SameRest(a, a % b, q * (b / g), g);
    }
  }

  /** A stride coprime to the capacity can be undone. */
  lemma Inverse(stride: nat, cap: nat) returns (inv: int)
    requires cap > 0 && stride > 0 && Coprime(stride, cap)
    ensures (stride * inv) % cap == 1 % cap
  {
    var x, y, g := Bezout(stride, cap);
    assert Divides(g, stride) && Divides(g, cap);
    inv := x;
    assert stride * x == 1 + (-y) * cap by { assert x * stride == stride * x && (-y) * cap == -(y * cap); }
    SameRest(stride * x, 1, -y, cap);
  }

  // ---------------------------------------------------------------- computeStride

  const SMALL_PRIMES: seq<nat> := [2, 3, 5, 7, 11, 13, 17, 19, 23]

  predicate Eligible(stride: nat, cap: nat)
    requires cap > 0
  {
    stride > 0 && stride % cap != 0 && cap % stride != 0
  }

  /** How far apart consecutive tickets land, going either way round. */
  function Separation(stride: nat, cap: nat): (r: nat)
    requires cap > 0
  {
    var sep := stride % cap;
    if sep <= cap - sep then sep else cap - sep
  }

  ghost predicate Prime(p: nat) {
    p > 1 && forall d: nat :: 1 < d < p ==> !Divides(d, p)
  }

  lemma TableIsPrime(i: nat)
    requires i < |SMALL_PRIMES|
    ensures Prime(SMALL_PRIMES[i])
  {
  }

  lemma LargerDoesNotDivide(d: nat, n: nat)
    requires 0 < n < d
    ensures !Divides(d, n)
  {
  }

  lemma PrimeIsCoprime(p: nat, cap: nat)
    requires Prime(p) && cap > 0 && cap % p != 0
    ensures Coprime(p, cap)
  {
    forall d: nat | d > 0 && Divides(d, p) && Divides(d, cap) ensures d == 1 {
      if d > p { LargerDoesNotDivide(d, p); }
    }
  }

  /** No eligible prime separates better, and no earlier one as well. */
  ghost predicate FirstWithBestSeparation(stride: nat, cap: nat)
    requires cap > 0
  {
    exists j :: 0 <= j < |SMALL_PRIMES| && SMALL_PRIMES[j] == stride && Best(j, |SMALL_PRIMES|, cap)
  }

  /** Among the first `n` entries, `j` is eligible and separates best, the earlier ones less. */
  ghost predicate Best(j: nat, n: nat, cap: nat)
    requires cap > 0 && j < n <= |SMALL_PRIMES|
  {
    && Eligible(SMALL_PRIMES[j], cap) && Separation(SMALL_PRIMES[j], cap) > 1
    && forall m :: 0 <= m < n && Eligible(SMALL_PRIMES[m], cap) ==>
         Separation(SMALL_PRIMES[m], cap) <= Separation(SMALL_PRIMES[j], cap) && (m < j ==> Separation(SMALL_PRIMES[m], cap) < Separation(SMALL_PRIMES[j], cap))
  }

  ghost predicate NoneSeparates(n: nat, cap: nat)
    requires cap > 0 && n <= |SMALL_PRIMES|
  {
    forall m :: 0 <= m < n && Eligible(SMALL_PRIMES[m], cap) ==> Separation(SMALL_PRIMES[m], cap) <= 1
  }

  method ComputeStride(cap: nat) returns (stride: nat)
    requires cap > 0
    ensures stride > 0 && Coprime(stride, cap)
    ensures if stride == 1 then NoneSeparates(|SMALL_PRIMES|, cap) else FirstWithBestSeparation(stride, cap)
  {
    stride := 1;
    var bestSep := 1;
    ghost var best: nat := 0;
    var i := 0;
    while i < |SMALL_PRIMES|
      invariant 0 <= i <= |SMALL_PRIMES|
      invariant if stride == 1 then bestSep == 1 && NoneSeparates(i, cap)
                else best < i && stride == SMALL_PRIMES[best] && bestSep == Separation(stride, cap) && Best(best, i, cap)
    {
      var p := SMALL_PRIMES[i];
      TableIsPrime(i);
      if Eligible(p, cap) {
        var sep := Separation(p, cap);
        if sep > bestSep {
          stride, bestSep, best := p, sep, i;
        }
      }
      i := i + 1;
    }
    if stride != 1 {
      TableIsPrime(best);
      PrimeIsCoprime(stride, cap);
    }
  }

  // ---------------------------------------------------------------- tickets

  function Idx(ticket: nat, stride: nat, cap: nat): (r: nat)
    requires cap > 0
    ensures r < cap
  {
    (ticket * stride) % cap
  }

  function Turn(ticket: nat, cap: nat): (r: nat)
    requires cap > 0
  {
    ticket / cap
  }

  /** What the stride multiplied, its inverse takes back. */
  lemma Undo(x: int, stride: nat, inv: int, cap: nat)
    requires cap > 0 && (stride * inv) % cap == 1 % cap
    ensures ((x * stride) * inv) % cap == x % cap
  {
    MulSameRest(stride * inv, 1, x, cap);
    assert (stride * inv) * x == (x * stride) * inv;
  }

  lemma SameSlot(t: nat, u: nat, stride: nat, cap: nat)
    requires cap > 0 && stride > 0 && Coprime(stride, cap) && Idx(t, stride, cap) == Idx(u, stride, cap)
    ensures t % cap == u % cap
  {
    var inv := Inverse(stride, cap);
    MulSameRest(t * stride, u * stride, inv, cap);
    Undo(t, stride, inv, cap);
    Undo(u, stride, inv, cap);
  }

  /** No two tickets share both slot and turn. */
  lemma SlotAndTurnNameTheTicket(t: nat, u: nat, stride: nat, cap: nat)
    requires cap > 0 && stride > 0 && Coprime(stride, cap)
    requires Idx(t, stride, cap) == Idx(u, stride, cap) && Turn(t, cap) == Turn(u, cap)
    ensures t == u
  {
    SameSlot(t, u, stride, cap);
    assert t == (t / cap) * cap + t % cap && u == (u / cap) * cap + u % cap;
  }

  lemma SlotOfUndone(t: nat, slot: nat, stride: nat, inv: int, cap: nat)
    requires cap > 0 && slot < cap && (stride * inv) % cap == 1 % cap && t % cap == (slot * inv) % cap
    ensures Idx(t, stride, cap) == slot
  {
    MulSameRest(t, slot * inv, stride, cap);
    assert (slot * inv) * stride == (slot * stride) * inv;
    Undo(slot, stride, inv, cap);
    MulDiv(0, cap, slot);
  }

  /** Every slot is visited at every turn. */
  lemma TicketFor(slot: nat, turn: nat, stride: nat, cap: nat) returns (t: nat)
    requires cap > 0 && stride > 0 && Coprime(stride, cap) && slot < cap
    ensures Idx(t, stride, cap) == slot && Turn(t, cap) == turn
  {
    var inv := Inverse(stride, cap);
    var x := (slot * inv) % cap;
    t := turn * cap + x;
    MulDiv(turn, cap, x);
    SlotOfUndone(t, slot, stride, inv, cap);
  }

  lemma Shift(u: nat, stride: nat, cap: nat)
    requires cap > 0
    ensures Idx(u + cap, stride, cap) == Idx(u, stride, cap) && Turn(u + cap, cap) == Turn(u, cap) + 1
  {
    assert (u + cap) * stride == u * stride + stride * cap;
    SameRest((u + cap) * stride, u * stride, stride, cap);
    assert u + cap == (u / cap + 1) * cap + u % cap;
    MulDiv(u / cap + 1, cap, u % cap);
  }

  lemma CloseTickets(u: nat, t: nat, stride: nat, cap: nat)
    requires cap > 0 && stride > 0 && Coprime(stride, cap) && Idx(u, stride, cap) == Idx(t, stride, cap) && t - cap < u < t + cap
    ensures u == t
  {
    SameSlot(u, t, stride, cap);
    assert u - t == cap * (u / cap - t / cap);
    NoWrap(cap, u / cap - t / cap);
  }

  /** Any `cap` consecutive tickets visit every slot exactly once. */
  lemma WindowVisitsEverySlotOnce(first: nat, slot: nat, stride: nat, cap: nat) returns (t: nat)
    requires cap > 0 && stride > 0 && Coprime(stride, cap) && slot < cap
    ensures first <= t < first + cap && Idx(t, stride, cap) == slot
    ensures forall u: nat :: first <= u < first + cap && Idx(u, stride, cap) == slot ==> u == t
  {
    var turn := first / cap;
    t := TicketFor(slot, turn, stride, cap);
    assert first == turn * cap + first % cap;
    assert t == turn * cap + t % cap;
    if t < first {
      Shift(t, stride, cap);
      t := t + cap;
    }
    forall u: nat | first <= u < first + cap && Idx(u, stride, cap) == slot ensures u == t {
      CloseTickets(u, t, stride, cap);
    }
  }
}
