/** `Math.random()` as an oracle: the caller supplies the draws, each a real
    in [0, 1), and a draw picks the index `Math.floor(draw * n)` of a list of
    length `n`. */
module Random {

  predicate IsDraw(r: real) {
    0.0 <= r < 1.0
  }

  predicate AllDraws(rs: seq<real>) {
    forall i :: 0 <= i < |rs| ==> IsDraw(rs[i])
  }

  /** `Math.floor(r * n)`: a uniform index below `n`. */
  function PickIndex(r: real, n: nat): (i: nat)
    requires IsDraw(r) && n > 0
    ensures i < n
    ensures i as real <= r * n as real < i as real + 1.0
  {
    var x := r * n as real;
    assert 0.0 <= x < n as real;
    x.Floor
  }
}
