/**
 * The secret and its scoring (`BullsCowsGame`): a list of the ten digit
 * characters that is reshuffled for every game, of which the first
 * `secretLength` entries are the secret.
 */
module BullsCows {
  import opened Common
  import opened JavaText

  /** The outcome of scoring one guess (`GuessResult`). */
  datatype GuessResult = GuessResult(bulls: int, cows: int)

  /** The ten digit characters in the order the list starts with: `'0'`, `'1'`, ..., `'9'`. */
  function DigitChars(): (s: seq<char>)
    ensures |s| == 10 && forall i :: 0 <= i < 10 ==> s[i] == DigitChar(i)
  {
    seq(10, i requires 0 <= i < 10 => DigitChar(i))
  }

  /** The list is some ordering of the ten digit characters. */
  ghost predicate IsDigitPermutation(s: seq<char>) {
    |s| == 10 && multiset(s) == multiset(DigitChars())
  }

  lemma {:induction false} DistinctCountsOnce(s: seq<char>)
    requires Distinct(s)
    ensures forall c :: multiset(s)[c] <= 1
  {
    if s != [] {
      assert s == [s[0]] + s[1..];
      assert Distinct(s[1..]) by {
        forall i, j | 0 <= i < j < |s| - 1 ensures s[1..][i] != s[1..][j] {
          assert s[i + 1] != s[j + 1];
        }
      }
      DistinctCountsOnce(s[1..]);
      assert s[0] !in s[1..] by {
        forall j | 0 <= j < |s| - 1 ensures s[1..][j] != s[0] {
          assert s[j + 1] != s[0];
        }
      }
    }
  }

  lemma RepeatCountsTwice(s: seq<char>, i: nat, j: nat)
    requires i < j < |s| && s[i] == s[j]
    ensures multiset(s)[s[i]] >= 2
  {
    assert s == s[..j] + s[j..];
    assert s[i] == s[..j][i];
    assert s[j] == s[j..][0];
  }

  /** What being a permutation of `'0'..'9'` gives: ten distinct digits, every digit among them. */
  lemma PermutationFacts(s: seq<char>)
    requires IsDigitPermutation(s)
    ensures |s| == 10 && AllDigits(s) && Distinct(s)
    ensures forall c :: IsDigit(c) ==> c in s
  {
    assert |s| == |multiset(s)| == |multiset(DigitChars())| == 10;
    forall i | 0 <= i < |s| ensures IsDigit(s[i]) {
      assert s[i] in multiset(DigitChars());
    }
    assert Distinct(DigitChars());
    DistinctCountsOnce(DigitChars());
    forall i, j | 0 <= i < j < |s| ensures s[i] != s[j] {
      if s[i] == s[j] {
        RepeatCountsTwice(s, i, j);
        assert false;
      }
    }
    forall c | IsDigit(c) ensures c in s {
      assert DigitChars()[c as int - '0' as int] == c;
      assert c in multiset(DigitChars());
    }
  }

  /** `List.indexOf`: the first position holding `c`, or -1 when there is none. */
  function IndexOf(s: seq<char>, c: char): (r: int)
    ensures -1 <= r < |s|
    ensures r >= 0 ==> s[r] == c && c !in s[..r]
    ensures r == -1 <==> c !in s
  {
    if s == [] then -1
    else if s[0] == c then 0
    else
      var k := IndexOf(s[1..], c);
      assert s[1..][..k + 1] == s[1..k + 2] by { assert k + 1 <= |s[1..]|; }
      if k == -1 then -1 else k + 1
  }

  /** `indexOf` finds `c` at `r` when `r` holds it and no earlier position does. */
  lemma IndexOfAt(s: seq<char>, c: char, r: nat)
    requires r < |s| && s[r] == c && forall k :: 0 <= k < r ==> s[k] != c
    ensures IndexOf(s, c) == r
  {
    assert c in s;
  }

  /** In a list without repeats, the position of an entry is found again by `indexOf`. */
  lemma IndexOfDistinct(s: seq<char>, i: nat)
    requires Distinct(s) && i < |s|
    ensures IndexOf(s, s[i]) == i
  {
    IndexOfAt(s, s[i], i);
  }

  /** What position `i` of a guess contributes. */
  datatype Mark = Bull | Cow | Miss

  /**
   * The loop body of `tryGuess`: the position of `guess[i]` in the list is
   * `i` for a bull, otherwise anything below `secretLength` is a cow. A
   * character missing from the list has position -1 and so counts as a cow.
   */
  function MarkAt(digits: seq<char>, secretLength: int, guess: string, i: nat): Mark
    requires i < |guess|
  {
    var idx := IndexOf(digits, guess[i]);
    if idx == i then Bull else if idx < secretLength then Cow else Miss
  }

  /** The counts `tryGuess` has after scoring positions `0..k-1`. */
  function Score(digits: seq<char>, secretLength: int, guess: string, k: nat): (r: GuessResult)
    requires k <= |guess|
    ensures 0 <= r.bulls && 0 <= r.cows && r.bulls + r.cows <= k
    ensures r.bulls == k ==> r.cows == 0
  {
    if k == 0 then GuessResult(0, 0)
    else
      var r := Score(digits, secretLength, guess, k - 1);
      match MarkAt(digits, secretLength, guess, k - 1)
      case Bull => GuessResult(r.bulls + 1, r.cows)
      case Cow => GuessResult(r.bulls, r.cows + 1)
      case Miss => r
  }

  // ---------------------------------------------------------------- reference counts

  /** Positions below `k` where the guess has the secret's digit. */
  function Matches(secret: string, guess: string, k: nat): nat
    requires k <= |guess| && k <= |secret|
  {
    if k == 0 then 0
    else Matches(secret, guess, k - 1) + if guess[k - 1] == secret[k - 1] then 1 else 0
  }

  /** Positions below `k` where the guess has a digit of the secret, but not the one there. */
  function Misplaced(secret: string, guess: string, k: nat): nat
    requires k <= |guess| && k <= |secret|
  {
    if k == 0 then 0
    else Misplaced(secret, guess, k - 1) + if guess[k - 1] != secret[k - 1] && guess[k - 1] in secret then 1 else 0
  }

  /**
   * For a guess made of digits, `tryGuess`'s position lookup agrees with the
   * textbook rule: bulls are the positions where guess and secret agree, cows
   * the other positions whose digit is somewhere in the secret.
   */
  lemma {:induction false} ScoreIsBullsAndCows(digits: seq<char>, secretLength: nat, guess: string, k: nat)
    requires IsDigitPermutation(digits) && secretLength <= 10
    requires |guess| == secretLength && AllDigits(guess) && k <= secretLength
    ensures Score(digits, secretLength, guess, k)
         == GuessResult(Matches(digits[..secretLength], guess, k), Misplaced(digits[..secretLength], guess, k))
  {
    if k > 0 {
      PermutationFacts(digits);
      ScoreIsBullsAndCows(digits, secretLength, guess, k - 1);
      var i := k - 1;
      var secret := digits[..secretLength];
      var c := guess[i];
      assert c in digits;
      var idx := IndexOf(digits, c);
      if c == secret[i] {
        IndexOfDistinct(digits, i);
      } else {
        assert idx != i;
        assert c in secret <==> idx < secretLength by {
          if idx < secretLength {
            assert secret[idx] == c;
          }
          if c in secret {
            var j :| 0 <= j < secretLength && secret[j] == c;
            IndexOfDistinct(digits, j);
          }
        }
      }
    }
  }

  /** The quirk kept from `tryGuess`: a character that is not a digit at all is counted as a cow. */
  lemma NonDigitIsCow(digits: seq<char>, secretLength: int, guess: string, i: nat)
    requires IsDigitPermutation(digits) && 0 <= secretLength
    requires i < |guess| && !IsDigit(guess[i])
    ensures MarkAt(digits, secretLength, guess, i) == Cow
  {
    PermutationFacts(digits);
    assert guess[i] !in digits;
  }

  /** Two prefixes agree one position further exactly when they agree so far and at that position. */
  lemma PrefixesAgreeStep(a: seq<char>, b: seq<char>, k: nat)
    requires 0 < k <= |a| && k <= |b|
    ensures a[..k] == b[..k] <==> a[..k - 1] == b[..k - 1] && a[k - 1] == b[k - 1]
  {
    assert a[..k] == a[..k - 1] + [a[k - 1]];
    assert b[..k] == b[..k - 1] + [b[k - 1]];
    if a[..k] == b[..k] {
      assert a[..k][..k - 1] == a[..k - 1] && b[..k][..k - 1] == b[..k - 1];
      assert a[..k][k - 1] == a[k - 1] && b[..k][k - 1] == b[k - 1];
    }
  }

  /** Position `i` is a bull exactly when the guess has the list's entry there. */
  lemma BullAt(digits: seq<char>, secretLength: int, guess: string, i: nat)
    requires IsDigitPermutation(digits) && i < |guess| && i < 10
    ensures MarkAt(digits, secretLength, guess, i) == Bull <==> guess[i] == digits[i]
  {
    assert Distinct(digits) by { PermutationFacts(digits); }
    IndexOfDistinct(digits, i);
  }

  /** The first `k` positions are all bulls exactly when they spell the list's first `k` entries. */
  lemma {:induction false} BullsAllOrNot(digits: seq<char>, secretLength: int, guess: string, k: nat)
    requires IsDigitPermutation(digits) && k <= |guess| && k <= 10
    ensures Score(digits, secretLength, guess, k).bulls == k <==> guess[..k] == digits[..k]
  {
    if k > 0 {
      BullsAllOrNot(digits, secretLength, guess, k - 1);
      BullAt(digits, secretLength, guess, k - 1);
      PrefixesAgreeStep(guess, digits, k);
    }
  }

  /** All positions are bulls exactly when the guess is the secret. */
  lemma WinIffSecret(digits: seq<char>, secretLength: nat, guess: string)
    requires IsDigitPermutation(digits) && secretLength <= 10 && |guess| == secretLength
    ensures Score(digits, secretLength, guess, secretLength).bulls == secretLength <==> guess == digits[..secretLength]
  {
    BullsAllOrNot(digits, secretLength, guess, secretLength);
    assert guess[..secretLength] == guess;
  }

  /** Scoring the secret against itself gives `secretLength` bulls and no cows. */
  lemma SecretScoresAllBulls(digits: seq<char>, secretLength: nat)
    requires IsDigitPermutation(digits) && secretLength <= 10
    ensures Score(digits, secretLength, digits[..secretLength], secretLength) == GuessResult(secretLength, 0)
  {
    PermutationFacts(digits);
    WinIffSecret(digits, secretLength, digits[..secretLength]);
  }

  /**
   * Guess "1325" against any list that starts `1,2,3,4,5`, secret length 4:
   * `1` is in place, `3` and `2` are in the secret elsewhere, `5` sits at
   * position 4, outside the secret.
   */
  lemma ScoreAgainstListStarting12345(digits: seq<char>, guess: string)
    requires |digits| == 10 && digits[..5] == "12345" && guess == "1325"
    ensures Score(digits, 4, guess, 4) == GuessResult(1, 2)
  {
    assert digits[0] == '1' && digits[1] == '2' && digits[2] == '3' && digits[3] == '4' && digits[4] == '5' by {
      assert digits[..5][0] == '1' && digits[..5][1] == '2' && digits[..5][2] == '3';
      assert digits[..5][3] == '4' && digits[..5][4] == '5';
    }
    IndexOfAt(digits, '1', 0);
    IndexOfAt(digits, '3', 2);
    IndexOfAt(digits, '2', 1);
    IndexOfAt(digits, '5', 4);
    assert Score(digits, 4, guess, 1) == GuessResult(1, 0);
    assert Score(digits, 4, guess, 2) == GuessResult(1, 1);
    assert Score(digits, 4, guess, 3) == GuessResult(1, 2);
  }

  /** The list `1,2,3,4,5,6,7,8,9,0`, length 4, guess "1325": 1 bull and 2 cows. */
  lemma ScoreExample()
    ensures Score("1234567890", 4, "1325", 4) == GuessResult(1, 2)
  {
    ScoreAgainstListStarting12345("1234567890", "1325");
  }

  // ---------------------------------------------------------------- the game object

  class BullsCowsGame {
    /** The digit list, reshuffled in place by every new game. */
    var digits: seq<char>
    /** How many leading entries of `digits` form the secret. */
    var secretLength: int

    ghost predicate Valid()
      reads this
    {
      |digits| == 10 && IsDigitPermutation(digits) && 0 <= secretLength <= 10
    }

    /** A fresh game: the list in order `'0'..'9'`, secret length 0 until one is generated. */
    constructor ()
      ensures Valid() && digits == DigitChars() && secretLength == 0
    {
      digits := DigitChars();
      secretLength := 0;
    }

    /** The secret: the first `secretLength` entries of the list. */
    function Secret(): string
      reads this
      requires Valid()
    {
      digits[..secretLength]
    }

    /**
     * `Collections.shuffle(digits)`: for `i` from the size down to 2, swap
     * entry `i - 1` with an entry chosen at random below `i`. The random
     * choice is left open, so the result is some permutation of the list.
     */
    method ShuffleDigits()
      modifies this`digits
      ensures |digits| == |old(digits)|
      ensures multiset(digits) == multiset(old(digits))
    {
      var i := |digits|;
      while i > 1
        invariant 0 <= i <= |digits| == |old(digits)|
        invariant multiset(digits) == multiset(old(digits))
      {
        var j :| 0 <= j < i;
        digits := digits[i - 1 := digits[j]][j := digits[i - 1]];
        i := i - 1;
      }
    }

    /**
     * `generateSecretNumber(length)`: a length outside 1..10 is refused with
     * IllegalArgumentException and nothing changes; otherwise the length is
     * kept and the list reshuffled.
     */
    method GenerateSecretNumber(length: int) returns (r: Result<()>)
      requires Valid()
      modifies this
      ensures Valid()
      ensures r.Err? <==> length < 1 || length > 10
      ensures r.Err? ==> r.message == "secret length must be between 1 and 10"
      ensures r.Err? ==> digits == old(digits) && secretLength == old(secretLength)
      ensures r.Ok? ==> secretLength == length && multiset(digits) == multiset(old(digits))
    {
      if length < 1 || length > 10 {
        return Err("secret length must be between 1 and 10");
      }
      secretLength := length;
      ShuffleDigits();
      r := Ok(());
    }

    /** `getSecretNumber()`: the first `secretLength` entries, copied into a fresh string. */
    method GetSecretNumber() returns (s: string)
      requires Valid()
      ensures s == Secret()
      ensures |s| == secretLength && AllDigits(s) && Distinct(s)
    {
      PermutationFacts(digits);
      var tmp := new char[secretLength];
      for i := 0 to secretLength
        invariant forall k :: 0 <= k < i ==> tmp[k] == digits[k]
      {
        tmp[i] := digits[i];
      }
      s := tmp[..];
    }

    /**
     * `tryGuess(guess)`: a guess whose length is not `secretLength` is refused
     * with IllegalArgumentException; otherwise every position is looked up in
     * the list and counted as a bull or a cow.
     */
    method TryGuess(guess: string) returns (r: Result<GuessResult>)
      requires Valid()
      ensures r.Err? <==> |guess| != secretLength
      ensures r.Err? ==> r.message == "Guess length must be exactly " + IntToString(secretLength)
      ensures r.Ok? ==> r.value == Score(digits, secretLength, guess, |guess|)
    {
      if |guess| != secretLength {
        return Err("Guess length must be exactly " + IntToString(secretLength));
      }
      var bulls, cows := 0, 0;
      for i := 0 to secretLength
        invariant GuessResult(bulls, cows) == Score(digits, secretLength, guess, i)
      {
        var idx := IndexOf(digits, guess[i]);
        if idx == i {
          bulls := bulls + 1;
        } else if idx < secretLength {
          cows := cows + 1;
        }
      }
      r := Ok(GuessResult(bulls, cows));
    }
  }
}
