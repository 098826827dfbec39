/**
 * The pieces of the Java string library the game relies on, written out:
 * decimal formatting (`String.valueOf(int)`, `%d`), `Integer.parseInt`,
 * `String.trim`, `String.toLowerCase`, the regular expression `\d+` and
 * `chars().distinct().count()`.
 */
module JavaText {
  import opened Common

  /** Bounds of Java's 32-bit `int`. */
  const MinInt: int := -0x8000_0000
  const MaxInt: int := 0x7FFF_FFFF

  /** An ASCII decimal digit: what `\d` matches without the UNICODE_CHARACTER_CLASS flag. */
  predicate IsDigit(c: char) {
    '0' <= c <= '9'
  }

  predicate AllDigits(s: string) {
    forall i :: 0 <= i < |s| ==> IsDigit(s[i])
  }

  /** `s.matches("\\d+")`: one or more ASCII digits and nothing else. */
  predicate MatchesDigits(s: string) {
    |s| >= 1 && AllDigits(s)
  }

  /** No character occurs twice. */
  predicate Distinct(s: string) {
    forall i, j :: 0 <= i < j < |s| ==> s[i] != s[j]
  }

  /** The set of characters of `s`: `s.chars().distinct()`. */
  function CharSet(s: string): set<char> {
    set i | 0 <= i < |s| :: s[i]
  }

  // ---------------------------------------------------------------- decimal text

  function DigitChar(d: nat): (c: char)
    requires d < 10
    ensures IsDigit(c) && c as int - '0' as int == d
  {
    (48 + d) as char
  }

  /** The decimal digits of `n`, most significant first, without leading zeros. */
  function DigitsOf(n: nat): (s: string)
    ensures |s| >= 1 && AllDigits(s)
    ensures n >= 10 ==> s[0] != '0'
  {
    if n < 10 then [DigitChar(n)] else DigitsOf(n / 10) + [DigitChar(n % 10)]
  }

  /** How `String.valueOf(int)` and the `%d` conversion write `n`. */
  function IntToString(n: int): (s: string)
    ensures |s| >= 1
    ensures s[0] == '-' <==> n < 0
    ensures s[0] != '+'
  {
    if n < 0 then "-" + DigitsOf(-n) else DigitsOf(n)
  }

  /** The number that a string of ASCII digits denotes in base 10. */
  function DigitsValue(s: string): nat
    requires AllDigits(s)
  {
    if s == [] then 0 else DigitsValue(s[..|s| - 1]) * 10 + (s[|s| - 1] as int - '0' as int)
  }

  /**
   * `Integer.parseInt(s)`: an optional leading `-` or `+`, then at least one
   * digit, and the value must fit in an `int`; `None` stands for the
   * NumberFormatException.
   */
  function ParseInt(s: string): (r: Option<int>)
    ensures r.Some? ==> MinInt <= r.value <= MaxInt
    ensures r.Some? ==> |s| >= 1 && (MatchesDigits(s) || ((s[0] == '-' || s[0] == '+') && MatchesDigits(s[1..])))
  {
    if |s| == 0 then None
    else
      var signed := s[0] == '-' || s[0] == '+';
      var body := if signed then s[1..] else s;
      if !MatchesDigits(body) then None
      else
        var magnitude: int := DigitsValue(body);
        var v := if s[0] == '-' then -magnitude else magnitude;
        if MinInt <= v <= MaxInt then Some(v) else None
  }

  lemma {:induction false} DigitsOfValue(n: nat)
    ensures DigitsValue(DigitsOf(n)) == n
  {
    if n >= 10 {
      var s := DigitsOf(n);
      assert s[..|s| - 1] == DigitsOf(n / 10);
      DigitsOfValue(n / 10);
    }
  }

  /** Parsing what `%d` printed gives the number back, for every `int`. */
  lemma ParseIntOfIntToString(n: int)
    requires MinInt <= n <= MaxInt
    ensures ParseInt(IntToString(n)) == Some(n)
  {
    var s := IntToString(n);
    if n < 0 {
      assert s[1..] == DigitsOf(-n);
      DigitsOfValue(-n);
    } else {
      assert IsDigit(s[0]);
      DigitsOfValue(n);
    }
  }

  /**
   * The converse of `ParseInt`'s contract: an optional sign and at least one
   * digit (leading zeros allowed) denote the digits' value with the sign
   * applied, and are parsed to it exactly when it fits in an `int`.
   */
  lemma ParseIntAccepts(s: string)
    ensures MatchesDigits(s) ==>
      ParseInt(s) == if DigitsValue(s) <= MaxInt then Some(DigitsValue(s)) else None
    ensures |s| >= 1 && s[0] == '+' && MatchesDigits(s[1..]) ==>
      ParseInt(s) == if DigitsValue(s[1..]) <= MaxInt then Some(DigitsValue(s[1..])) else None
    ensures |s| >= 1 && s[0] == '-' && MatchesDigits(s[1..]) ==>
      ParseInt(s) == if DigitsValue(s[1..]) <= -MinInt then Some(-(DigitsValue(s[1..]) as int)) else None
  {
  }

  /** The digits of the first value past `MaxInt`. */
  lemma DigitsValueRangeEnd()
    ensures DigitsValue("2147483648") == MaxInt + 1
  {
    assert DigitsValue("2") == 2;
    assert DigitsValue("21") == 21 by { assert "21"[..1] == "2"; }
    assert DigitsValue("214") == 214 by { assert "214"[..2] == "21"; }
    assert DigitsValue("2147") == 2147 by { assert "2147"[..3] == "214"; }
    assert DigitsValue("21474") == 21474 by { assert "21474"[..4] == "2147"; }
    assert DigitsValue("214748") == 214748 by { assert "214748"[..5] == "21474"; }
    assert DigitsValue("2147483") == 2147483 by { assert "2147483"[..6] == "214748"; }
    assert DigitsValue("21474836") == 21474836 by { assert "21474836"[..7] == "2147483"; }
    assert DigitsValue("214748364") == 214748364 by { assert "214748364"[..8] == "21474836"; }
    assert DigitsValue("2147483648") == 2147483648 by { assert "2147483648"[..9] == "214748364"; }
  }

  /** Texts `%d` never writes: a `+` sign, leading zeros, `-0`, and the first value past the range. */
  lemma ParseIntExamples()
    ensures ParseInt("+5") == Some(5)
    ensures ParseInt("007") == Some(7)
    ensures ParseInt("-0") == Some(0)
    ensures ParseInt("2147483648") == None
    ensures ParseInt("1 2") == None && ParseInt("-") == None && ParseInt("") == None
  {
    assert DigitsValue("5") == 5;
    assert DigitsValue("007") == 7 by {
      assert "007"[..2] == "00" && "00"[..1] == "0" && "0"[..0] == "";
    }
    assert DigitsValue("0") == 0;
    DigitsValueRangeEnd();
  }

  /** `%d` writes `"0"` for zero only. */
  lemma IntToStringZero(n: int)
    ensures IntToString(n) == "0" <==> n == 0
  {
    if n >= 10 {
      assert |DigitsOf(n)| >= 2;
    }
  }

  // ---------------------------------------------------------------- trim

  /** `String.trim` removes characters up to and including U+0020 at both ends. */
  predicate IsTrimmed(c: char) {
    c <= ' '
  }

  /** The first loop of `trim`: how many characters at the start are removed. */
  function TrimStartCount(s: string): (st: nat)
    ensures st <= |s|
  {
    if s != [] && IsTrimmed(s[0]) then 1 + TrimStartCount(s[1..]) else 0
  }

  /** The first loop stops at the first character it does not remove. */
  lemma {:induction false} TrimStartStops(s: string)
    ensures var st := TrimStartCount(s);
      (forall k :: 0 <= k < st ==> IsTrimmed(s[k])) && (st < |s| ==> !IsTrimmed(s[st]))
  {
    if s != [] && IsTrimmed(s[0]) {
      TrimStartStops(s[1..]);
      assert forall k :: 1 <= k < |s| ==> s[k] == s[1..][k - 1];
    }
  }

  /** The second loop of `trim`: `len` shrinks while it stays above `st` and the character before it is removed. */
  function TrimEndAt(s: string, st: nat, len: nat): (e: nat)
    requires st <= len <= |s|
    ensures st <= e <= len
    decreases len
  {
    if st < len && IsTrimmed(s[len - 1]) then TrimEndAt(s, st, len - 1) else len
  }

  /** The second loop stops above `st` only at a character it does not remove. */
  lemma {:induction false} TrimEndStops(s: string, st: nat, len: nat)
    requires st <= len <= |s|
    ensures var e := TrimEndAt(s, st, len);
      (forall k :: e <= k < len ==> IsTrimmed(s[k])) && (e > st ==> !IsTrimmed(s[e - 1]))
    decreases len
  {
    if st < len && IsTrimmed(s[len - 1]) {
      TrimEndStops(s, st, len - 1);
    }
  }

  /** `s.trim()`. */
  function Trim(s: string): string {
    var st := TrimStartCount(s);
    s[st..TrimEndAt(s, st, |s|)]
  }

  /**
   * What `trim` leaves: a piece of `s` that neither starts nor ends with a
   * removed character, and nothing at all exactly when every character of
   * `s` is one `trim` removes.
   */
  lemma TrimShape(s: string)
    ensures |Trim(s)| <= |s|
    ensures exists st, e ::
      (0 <= st <= e <= |s| && Trim(s) == s[st..e]
       && (forall k :: 0 <= k < st ==> IsTrimmed(s[k]))
       && (forall k :: e <= k < |s| ==> IsTrimmed(s[k])))
    ensures Trim(s) == [] || (!IsTrimmed(Trim(s)[0]) && !IsTrimmed(Trim(s)[|Trim(s)| - 1]))
    ensures Trim(s) == [] <==> forall k :: 0 <= k < |s| ==> IsTrimmed(s[k])
  {
    var st := TrimStartCount(s);
    var e := TrimEndAt(s, st, |s|);
    TrimStartStops(s);
    TrimEndStops(s, st, |s|);
    if st < |s| {
      assert !IsTrimmed(s[st]);
      assert e > st;
    }
  }

  /** A string that neither starts nor ends with a removed character is left as it is. */
  lemma TrimKeeps(s: string)
    requires s == [] || (!IsTrimmed(s[0]) && !IsTrimmed(s[|s| - 1]))
    ensures Trim(s) == s
  {
    assert TrimStartCount(s) == 0;
    assert TrimEndAt(s, 0, |s|) == |s|;
  }

  /** Trimming twice is trimming once. */
  lemma TrimIdempotent(s: string)
    ensures Trim(Trim(s)) == Trim(s)
  {
    TrimShape(s);
    TrimKeeps(Trim(s));
  }

  // ---------------------------------------------------------------- lower case

  /** The upper-case letters the model lower-cases: ASCII `A`..`Z`, Cyrillic `А`..`Я` and `Ё`. */
  predicate IsUpper(c: char) {
    'A' <= c <= 'Z' || '\U{0410}' <= c <= '\U{042F}' || c == '\U{0401}'
  }

  /** Their lower-case partners: `a`..`z`, `а`..`я` and `ё`. */
  predicate IsLower(c: char) {
    'a' <= c <= 'z' || '\U{0430}' <= c <= '\U{044F}' || c == '\U{0451}'
  }

  /** `Character.toUpperCase` on the same letters: the inverse `LowerChar` is checked against. */
  function UpperChar(c: char): char {
    if 'a' <= c <= 'z' || '\U{0430}' <= c <= '\U{044F}' then (c as int - 32) as char
    else if c == '\U{0451}' then '\U{0401}'
    else c
  }

  /**
   * `Character.toLowerCase` on the letters the game's answers use: an
   * upper-case letter becomes the lower-case letter that upper-cases back to
   * it; every other character is left as it is.
   */
  function LowerChar(c: char): (d: char)
    ensures IsUpper(c) ==> IsLower(d) && UpperChar(d) == c
    ensures !IsUpper(c) ==> d == c
    ensures IsDigit(c) ==> d == c
  {
    if 'A' <= c <= 'Z' || '\U{0410}' <= c <= '\U{042F}' then (c as int + 32) as char
    else if c == '\U{0401}' then '\U{0451}'
    else c
  }

  /** `s.toLowerCase()`, letter by letter. */
  function ToLower(s: string): (r: string)
    ensures |r| == |s|
    ensures forall i :: 0 <= i < |s| ==> r[i] == LowerChar(s[i])
  {
    seq(|s|, i requires 0 <= i < |s| => LowerChar(s[i]))
  }

  /** Lower-casing twice is lower-casing once: no upper-case letter is left. */
  lemma ToLowerIdempotent(s: string)
    ensures ToLower(ToLower(s)) == ToLower(s)
    ensures forall i :: 0 <= i < |s| ==> !IsUpper(ToLower(s)[i])
  {
  }

  /** Lower-casing keeps exactly the characters `trim` removes. */
  lemma LowerKeepsTrimmed(c: char)
    ensures IsTrimmed(LowerChar(c)) <==> IsTrimmed(c)
  {
  }

  lemma {:induction false} TrimStartCountLower(s: string)
    ensures TrimStartCount(ToLower(s)) == TrimStartCount(s)
  {
    if s != [] {
      LowerKeepsTrimmed(s[0]);
      assert ToLower(s)[1..] == ToLower(s[1..]);
      TrimStartCountLower(s[1..]);
    }
  }

  lemma {:induction false} TrimEndAtLower(s: string, st: nat, len: nat)
    requires st <= len <= |s|
    ensures TrimEndAt(ToLower(s), st, len) == TrimEndAt(s, st, len)
    decreases len
  {
    if st < len {
      LowerKeepsTrimmed(s[len - 1]);
      TrimEndAtLower(s, st, len - 1);
    }
  }

  /**
   * `trim` and `toLowerCase` commute, so `s.trim().toLowerCase()` does not
   * depend on the case of `s`.
   */
  lemma TrimToLower(s: string)
    ensures Trim(ToLower(s)) == ToLower(Trim(s))
  {
    TrimStartCountLower(s);
    var st := TrimStartCount(s);
    TrimEndAtLower(s, st, |s|);
  }

  // ---------------------------------------------------------------- distinct count

  lemma {:induction false} CharSetSize(s: string)
    ensures |CharSet(s)| <= |s|
    ensures |CharSet(s)| == |s| <==> Distinct(s)
  {
    if s != [] {
      var t := s[1..];
      CharSetSize(t);
      assert CharSet(s) == {s[0]} + CharSet(t) by {
        forall c | c in CharSet(s) ensures c in {s[0]} + CharSet(t) {
          var i :| 0 <= i < |s| && s[i] == c;
          if i > 0 { assert t[i - 1] == c; }
        }
        forall c | c in CharSet(t) ensures c in CharSet(s) {
          var i :| 0 <= i < |t| && t[i] == c;
          assert s[i + 1] == c;
        }
      }
      if s[0] in CharSet(t) {
        var j :| 0 <= j < |t| && t[j] == s[0];
        assert s[0] == s[j + 1];
        assert !Distinct(s);
      } else {
        assert |CharSet(s)| == |CharSet(t)| + 1;
        if Distinct(t) {
          forall i, j | 0 <= i < j < |s| ensures s[i] != s[j] {
            if i == 0 {
              assert s[j] == t[j - 1];
            } else {
              assert s[i] == t[i - 1] && s[j] == t[j - 1];
            }
          }
        } else {
          var i, j :| 0 <= i < j < |t| && t[i] == t[j];
          assert s[i + 1] == s[j + 1];
        }
      }
    }
  }
}
