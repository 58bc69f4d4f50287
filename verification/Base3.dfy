/** Ballot arrays packed into one number, three states a digit. */
module Base3 {
  import opened Common

  const UINT256: nat := 0x1_0000000000000000_0000000000000000_0000000000000000_0000000000000000

  function Pow3(n: nat): (r: nat)
    ensures r >= 1
  {
    if n == 0 then 1 else 3 * Pow3(n - 1)
  }

  function Code(ballot: Ballot): (r: nat)
    ensures r < 3
  {
    match ballot case NoBallot => 0 case CommitBallot => 1 case AbortBallot => 2
  }

  function FromCode(code: nat): Ballot
    requires code < 3
  {
    if code == 0 then NoBallot else if code == 1 then CommitBallot else AbortBallot
  }

  function Encode(ballots: seq<Ballot>): nat {
    if ballots == [] then 0 else Code(ballots[0]) + 3 * Encode(ballots[1..])
  }

  function Ballots(word: nat, n: nat): (r: seq<Ballot>)
    ensures |r| == n
    decreases n
  {
    if n == 0 then [] else [FromCode(word % 3)] + Ballots(word / 3, n - 1)
  }

  lemma {:induction false} DecodeEncode(ballots: seq<Ballot>)
    ensures Ballots(Encode(ballots), |ballots|) == ballots
  {
    if ballots != [] {
      DecodeEncode(ballots[1..]);
    }
  }

  lemma {:induction false} EncodeDecode(word: nat, n: nat)
    requires word < Pow3(n)
    ensures Encode(Ballots(word, n)) == word
  {
    if n > 0 {
      EncodeDecode(word / 3, n - 1);
      assert Ballots(word, n)[1..] == Ballots(word / 3, n - 1);
    }
  }

  lemma {:induction false} EncodeBound(ballots: seq<Ballot>)
    ensures Encode(ballots) < Pow3(|ballots|)
  {
    if ballots != [] {
      EncodeBound(ballots[1..]);
    }
  }

  lemma {:induction false} EncodeUpdate(ballots: seq<Ballot>, i: nat, ballot: Ballot)
    requires i < |ballots|
    ensures Encode(ballots[i := ballot]) == Encode(ballots) - Code(ballots[i]) * Pow3(i) + Code(ballot) * Pow3(i)
  {
    if i == 0 {
      assert ballots[i := ballot][1..] == ballots[1..];
    } else {
      EncodeUpdate(ballots[1..], i - 1, ballot);
      assert ballots[i := ballot][1..] == ballots[1..][i - 1 := ballot];
      assert ballots[i := ballot][0] == ballots[0];
      Triple(Code(ballots[i]), Pow3(i - 1));
      Triple(Code(ballot), Pow3(i - 1));
    }
  }

  lemma Triple(a: nat, p: nat)
    ensures a * (3 * p) == 3 * (a * p)
  {
  }

  lemma PositiveFactor(a: int, d: nat)
    requires a >= 1
    ensures a * d >= d
  {
  }

  lemma QuotientIsUnique(x: nat, d: nat, q: nat, r: nat)
    requires r < d && x == q * d + r
    ensures x / d == q
  {
    var q', r' := x / d, x % d;
    assert x == q' * d + r';
    assert (q - q') * d == r' - r;
    if q' < q {
      PositiveFactor(q - q', d);
    } else if q < q' {
      PositiveFactor(q' - q, d);
    }
  }

  lemma DivideTwice(x: nat, p: nat)
    requires p >= 1
    ensures x / (3 * p) == (x / 3) / p
  {
    var q, r := (x / 3) / p, (x / 3) % p;
    assert x / 3 == q * p + r;
    Triple(q, p);
    QuotientIsUnique(x, 3 * p, q, 3 * r + x % 3);
  }

  /** Reading a digit of the word reads the array. */
  lemma {:induction false} DigitIsBallot(word: nat, n: nat, i: nat)
    requires i < n
    ensures FromCode((word / Pow3(i)) % 3) == Ballots(word, n)[i]
  {
    if i > 0 {
      DivideTwice(word, Pow3(i - 1));
      DigitIsBallot(word / 3, n - 1, i - 1);
    }
  }

  lemma {:induction false} DigitBound(ballots: seq<Ballot>, i: nat)
    requires i < |ballots|
    ensures Code(ballots[i]) * Pow3(i) <= Encode(ballots)
  {
    if i > 0 {
      DigitBound(ballots[1..], i - 1);
      Triple(Code(ballots[i]), Pow3(i - 1));
    }
  }

  lemma {:induction false} PowersGrow(m: nat, n: nat)
    requires m <= n
    ensures Pow3(m) <= Pow3(n)
  {
    if m < n {
      PowersGrow(m, n - 1);
    }
  }

  lemma {:induction false} PowersMultiply(m: nat, n: nat)
    ensures Pow3(m + n) == Pow3(m) * Pow3(n)
  {
    if m > 0 {
      PowersMultiply(m - 1, n);
    }
  }

  lemma PowerDoubles(n: nat, v: nat)
    requires Pow3(n) == v
    ensures Pow3(2 * n) == v * v
  {
    PowersMultiply(n, n);
  }

  lemma PowerAtBound() returns (bound: nat)
    ensures bound == 120 && 3 * Pow3(bound) < UINT256
  {
    var n := 15;
    assert Pow3(n) == 14348907;
    PowerDoubles(n, 14348907);
    PowerDoubles(2 * n, 205891132094649);
    PowerDoubles(4 * n, 42391158275216203514294433201);
    bound := 8 * n;
  }

  /** The bound on the number of cohorts keeps every power inside a word. */
  lemma PowersFit(n: nat)
    requires n <= 120
    ensures 3 * Pow3(n) < UINT256
  {
    var bound := PowerAtBound();
    PowersGrow(n, bound);
  }
}
