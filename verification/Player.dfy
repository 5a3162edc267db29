/** Players and their Elo ratings.  Ratings are integers: both new values are truncated
    toward zero, as C does when it stores a double in an int. */
module Players {
  import opened Basics

  const INITIAL_RATING := 1500

  function Trunc(x: real): int {
    if x >= 0.0 then x.Floor else -((-x).Floor)
  }

  /** The expected score of player 1, where q is 10^((R2-R1)/400). */
  function Expected(q: PosReal): real {
    1.0 / (1.0 + q)
  }

  predicate IsResult(result: int) {
    0 <= result <= 2
  }

  /** The score of player 1 for a result code: 0 a draw, 1 a win, 2 a loss. */
  function ScoreOf(result: int): real
    requires IsResult(result)
  {
    if result == 0 then 0.5 else if result == 1 then 1.0 else 0.0
  }

  /** Player 1's new rating before it is truncated. */
  function Exact(r1: int, result: int, q: PosReal): real
    requires IsResult(result)
  {
    r1 as real + 32.0 * (ScoreOf(result) - Expected(q))
  }

  function NewRatings(r1: int, r2: int, result: int, q: PosReal): (int, int)
    requires IsResult(result)
  {
    (Trunc(Exact(r1, result, q)), Trunc((r1 + r2) as real - Exact(r1, result, q)))
  }

  /* ---------- truncation ---------- */

  /** Truncation respects every integer bound. */
  lemma TruncBounds(x: real, n: int)
    ensures x <= n as real ==> Trunc(x) <= n
    ensures x >= n as real ==> Trunc(x) >= n
  {
    if x >= 0.0 {
      assert x.Floor as real <= x < x.Floor as real + 1.0;
    } else {
      var m := (-x).Floor;
      assert m as real <= -x < m as real + 1.0;
    }
  }

  /* ---------- expected scores ---------- */

  lemma Scale(x: real, y: real, z: real)
    requires z > 0.0
    ensures x < y <==> x * z < y * z
  {
    if x < y {
      assert (y - x) * z > 0.0;
    } else {
      assert (x - y) * z >= 0.0;
    }
  }

  lemma ExpectedBounds(q: PosReal)
    ensures 0.0 < Expected(q) < 1.0
    ensures Expected(q) * (1.0 + q) == 1.0
  {
    assert Expected(q) * (1.0 + q) == 1.0;
    Scale(0.0, Expected(q), 1.0 + q);
    Scale(Expected(q), 1.0, 1.0 + q);
  }

  /** 10^(-d/400) for q = 10^(d/400). */
  function Inverse(q: PosReal): (p: PosReal)
    ensures p * q == 1.0
  {
    Scale(0.0, 1.0 / q, q);
    1.0 / q
  }

  /** The two expected scores add up to one. */
  lemma ExpectedSum(q: PosReal)
    ensures Expected(q) + Expected(Inverse(q)) == 1.0
  {
    var p := Inverse(q);
    ExpectedBounds(q);
    ExpectedBounds(p);
    SharesAddUp(Expected(q), Expected(p), p, q);
  }

  lemma SharesAddUp(e: real, f: real, p: real, q: PosReal)
    requires p * q == 1.0 && e * (1.0 + q) == 1.0 && f * (1.0 + p) == 1.0
    ensures e + f == 1.0
  {
    assert f * (1.0 + q) == q by {
      assert (f * (1.0 + p)) * q == q;
      assert (f * (1.0 + p)) * q == f * q + f * (p * q);
    }
    assert (e + f) * (1.0 + q) == 1.0 + q;
    Scale(e + f, 1.0, 1.0 + q);
    Scale(1.0, e + f, 1.0 + q);
  }

  /* ---------- what one result does ---------- */

  /** Winning instead of losing is worth 32 points, and a draw half of that, against any opponent. */
  lemma WorthOfAResult(r1: int, q: PosReal)
    ensures Exact(r1, 1, q) - Exact(r1, 2, q) == 32.0
    ensures Exact(r1, 1, q) - Exact(r1, 0, q) == 16.0
    ensures Exact(r1, 0, q) - Exact(r1, 2, q) == 16.0
  {
  }

  /** A win over an opponent who is stronger by a factor of q is worth 32q/(1+q) points. */
  lemma WorthOfAWin(r1: int, q: PosReal)
    ensures (Exact(r1, 1, q) - r1 as real) * (1.0 + q) == 32.0 * q
  {
    ExpectedBounds(q);
    var e := Expected(q);
    assert Exact(r1, 1, q) - r1 as real == 32.0 * (1.0 - e);
    assert (32.0 * (1.0 - e)) * (1.0 + q) == 32.0 * (1.0 + q) - 32.0 * (e * (1.0 + q));
  }

  /** Between equals a win moves sixteen points, and a draw none, truncation included. */
  lemma EvenMatch(r: int)
    ensures NewRatings(r, r, 0, 1.0) == (r, r)
    ensures NewRatings(r, r, 1, 1.0) == (r + 16, r - 16)
    ensures NewRatings(r, r, 2, 1.0) == (r - 16, r + 16)
  {
    assert Expected(1.0) == 0.5;
    TruncWhole(r);
    TruncWhole(r + 16);
    TruncWhole(r - 16);
  }

  lemma TruncWhole(n: int)
    ensures Trunc(n as real) == n
  {
    TruncBounds(n as real, n);
  }

  /** One result moves the sum of the two ratings by at most one; when neither exact
      value is negative the sum never grows. */
  lemma Drift(r1: int, r2: int, result: int, q: PosReal)
    requires IsResult(result)
    ensures var (a, b) := NewRatings(r1, r2, result, q);
            && -1 <= a + b - (r1 + r2) <= 1
            && (Exact(r1, result, q) >= 0.0 && (r1 + r2) as real >= Exact(r1, result, q) ==> a + b <= r1 + r2)
  {
    var x := Exact(r1, result, q);
    var s := r1 + r2;
    var y := s as real - x;
    var m, n := if x >= 0.0 then x.Floor else (-x).Floor, if y >= 0.0 then y.Floor else (-y).Floor;
    assert x >= 0.0 ==> m as real <= x < m as real + 1.0;
    assert x < 0.0 ==> m as real <= -x < m as real + 1.0;
    assert y >= 0.0 ==> n as real <= y < n as real + 1.0;
    assert y < 0.0 ==> n as real <= -y < n as real + 1.0;
    var t := (Trunc(x) + Trunc(y) - s) as real;
    assert -2.0 < t < 2.0;
  }

  /** Exactly when the two truncations lose a point or win one: both exact values have a fraction
      and lie on the same side of zero. */
  lemma ConservedExactly(r1: int, r2: int, result: int, q: PosReal)
    requires IsResult(result)
    ensures var (a, b) := NewRatings(r1, r2, result, q);
            var (x, y) := (Exact(r1, result, q), (r1 + r2) as real - Exact(r1, result, q));
            a + b - (r1 + r2) == if x.Floor as real == x then 0 else if x > 0.0 && y > 0.0 then -1
                                 else if x < 0.0 && y < 0.0 then 1 else 0
  {
    TruncShare(r1 + r2, Exact(r1, result, q));
  }

  lemma TruncShare(s: int, x: real)
    ensures Trunc(x) + Trunc(s as real - x) - s
            == if x.Floor as real == x then 0 else if x > 0.0 && s as real - x > 0.0 then -1
               else if x < 0.0 && s as real - x < 0.0 then 1 else 0
  {
    var m := x.Floor;
    var y := s as real - x;
    if m as real == x {
      assert y == (s - m) as real;
      assert (-x) == (-m) as real && (-y) == (m - s) as real;
    } else {
      assert m as real < x < (m + 1) as real;
      assert (s - m - 1) as real < y < (s - m) as real;
      assert y.Floor == s - m - 1;
      assert (-x).Floor == -m - 1;
      assert (-y).Floor == m - s;
    }
  }

  /** Neither rating moves by more than 32; the winner's never falls and the loser's never rises. */
  lemma MovesAreBounded(r1: int, r2: int, result: int, q: PosReal)
    requires IsResult(result)
    ensures var (a, b) := NewRatings(r1, r2, result, q);
            && -32 <= a - r1 <= 32 && -32 <= b - r2 <= 32
            && (result == 1 ==> a >= r1 && b <= r2)
            && (result == 2 ==> a <= r1 && b >= r2)
  {
    ExpectedBounds(q);
    var x := Exact(r1, result, q);
    var y := (r1 + r2) as real - x;
    TruncBounds(x, r1 - 32);
    TruncBounds(x, r1 + 32);
    TruncBounds(y, r2 - 32);
    TruncBounds(y, r2 + 32);
    TruncBounds(x, r1);
    TruncBounds(y, r2);
  }

  /** A draw never lowers the weaker player nor raises the stronger: q >= 1 says that
      player 1 is not the stronger, q <= 1 that player 2 is not. */
  lemma DrawHelpsTheWeaker(r1: int, r2: int, q: PosReal)
    ensures var (a, b) := NewRatings(r1, r2, 0, q);
            && (q >= 1.0 ==> a >= r1 && b <= r2)
            && (q <= 1.0 ==> a <= r1 && b >= r2)
  {
    ExpectedBounds(q);
    DrawShare(Expected(q), q);
    TruncBounds(Exact(r1, 0, q), r1);
    TruncBounds((r1 + r2) as real - Exact(r1, 0, q), r2);
  }

  lemma DrawShare(e: real, q: PosReal)
    requires e * (1.0 + q) == 1.0
    ensures q >= 1.0 ==> e <= 0.5
    ensures q <= 1.0 ==> e >= 0.5
  {
    Scale(e, 0.5, 1.0 + q);
    Scale(0.5, e, 1.0 + q);
  }

  function Mirror(result: int): int {
    if result == 1 then 2 else if result == 2 then 1 else result
  }

  /** Naming the players in the other order gives the same two new ratings, truncation included. */
  lemma OrderDoesNotMatter(r1: int, r2: int, result: int, q: PosReal)
    requires IsResult(result)
    ensures var (a, b) := NewRatings(r1, r2, result, q);
            NewRatings(r2, r1, Mirror(result), Inverse(q)) == (b, a)
  {
    ExpectedSum(q);
    assert Exact(r2, Mirror(result), Inverse(q)) == (r1 + r2) as real - Exact(r1, result, q);
  }

  /* ---------- the mutable PLAYER ---------- */

  datatype PlayerRec = PlayerRec(ref: int, rating: int)

  class Player {
    const name: string
    var refCount: int
    var rating: int

    ghost function Rec(): PlayerRec
      reads this
    {
      PlayerRec(refCount, rating)
    }

    constructor (name: string)
      ensures this.name == name && Rec() == PlayerRec(1, INITIAL_RATING)
    {
      this.name := name;
      refCount := 0;
      rating := INITIAL_RATING;
      new;
      refCount := refCount + 1;
    }
  }

  /** Whether a posted result takes effect at all. */
  predicate Effective(player1: Player?, player2: Player?, result: int) {
    player1 != null && player2 != null && player1 != player2 && IsResult(result)
  }

  /** player_post_result, where pow(d) is 10^(d/400). */
  method PostResult(player1: Player?, player2: Player?, result: int, pow: int -> PosReal)
    modifies (if player1 != null then {player1} else {})`rating, (if player2 != null then {player2} else {})`rating
    ensures Effective(player1, player2, result) ==>
              (player1.rating, player2.rating)
              == NewRatings(old(player1.rating), old(player2.rating), result, pow(old(player2.rating - player1.rating)))
    ensures !Effective(player1, player2, result) ==>
              (player1 != null ==> player1.rating == old(player1.rating))
              && (player2 != null ==> player2.rating == old(player2.rating))
  {
    if player1 == null || player2 == null {
      return;
    }
    if player1 == player2 {
      return;
    }
    if result < 0 || result > 2 {
      return;
    }
    var s1, s2 := 0.0, 0.0;
    if result == 0 {
      s1 := 0.5;
      s2 := 0.5;
    } else if result == 1 {
      s1 := 1.0;
    } else {
      s2 := 1.0;
    }
    var r3 := player1.rating + player2.rating;
    var e1 := 1.0 / (1.0 + pow(player2.rating - player1.rating));
    var rp1 := player1.rating as real + 32.0 * (s1 - e1);
    player1.rating := Trunc(rp1);
    player2.rating := Trunc(r3 as real - rp1);
  }
}
