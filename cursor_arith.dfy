/** Facts about the wrapping frame cursor shared by both animation players. */
module CursorArith {

  /** The remainder is the one `r` with `x == q * n + r` and `0 <= r < n`. */
  lemma ModUnique(x: int, n: int, q: int, r: int)
    requires n > 0 && 0 <= r < n && x == q * n + r
    ensures x % n == r
  {
    var d := q - x / n;
    assert d * n == x % n - r;
  }

  /** Reducing a cursor before moving it on does not change where it lands. */
  lemma ModAddLeft(a: int, j: int, n: int)
    requires n > 0
    ensures (a % n + j) % n == (a + j) % n
  {
    var q, q' := a / n, (a % n + j) / n;
    assert a == q * n + a % n;
    assert a % n + j == q' * n + (a % n + j) % n;
    assert a + j == (q + q') * n + (a % n + j) % n;
    ModUnique(a + j, n, q + q', (a % n + j) % n);
  }

  /** Stepping the last index of `n` wraps to 0, any other steps by one. */
  lemma StepIsModulo(c: nat, n: nat)
    requires c < n
    ensures (c + 1) % n == (if c + 1 >= n then 0 else c + 1)
  {
    if c + 1 >= n {
      ModUnique(c + 1, n, 1, 0);
    } else {
      ModUnique(c + 1, n, 0, c + 1);
    }
  }

  /** The frame at the cursor followed by the frames from the next cursor on. */
  lemma FirstThenShifted(paths: seq<string>, c: nat, rest: seq<string>)
    requires c < |paths|
    requires forall j | 0 <= j < |rest| :: rest[j] == paths[((c + 1) % |paths| + j) % |paths|]
    ensures forall j | 0 <= j < |rest| + 1 :: ([paths[c]] + rest)[j] == paths[(c + j) % |paths|]
  {
    var n := |paths|;
    forall j | 0 <= j < |rest| + 1 ensures ([paths[c]] + rest)[j] == paths[(c + j) % n] {
      if j > 0 {
        ModAddLeft(c + 1, j - 1, n);
      } else {
        ModUnique(c, n, 0, c);
      }
    }
  }
}
