/**
 * One game session (`GameHost.hostGame`): the secret is generated, then
 * each attempt reads lines against its deadline and checks them until one
 * can be scored; the session ends on a timeout, a late line, a confirmed
 * exit, a win, or when the attempts run out.
 *
 * The clock is the event script of the terminal: a read that the deadline
 * cut short is a `Timeout`, a line that came in after it is `Late`.
 */
module Host {
  import opened Common
  import opened JavaText
  import opened Parameters
  import opened BullsCows
  import opened Tui

  /** How a session ends. `Refused`: `generateSecretNumber` threw before anything was printed. */
  datatype Outcome = Refused | TimedOut | LateInput | Aborted | Won | Exhausted

  /** How `hostGame` ended and how many guesses it scored. */
  datatype SessionResult = SessionResult(outcome: Outcome, attemptsUsed: nat)

  const GuessPrompt: string := "Какое же число?: "
  const TimeOver: string := "Игра окончена: вышло время."
  const SecretIs: string := "Загаданное число: "
  const OnlyDigits: string := "Только цифры"
  const NoRepeats: string := "Повторяющиеся цифры не допускаются"
  const YouDidIt: string := "Ты смог!, "
  const AttemptsOver: string := "Попытки закончились."

  /** The status shown above the prompt: `Попытка %d/%d · Время:`. */
  function StatusLabel(attemptNo: int, maxAttempts: int): string {
    "Попытка " + IntToString(attemptNo) + "/" + IntToString(maxAttempts) + " · Время:"
  }

  /** `Надо %d цифр`. */
  function LengthHint(secretLength: int): string {
    "Надо " + IntToString(secretLength) + " цифр"
  }

  /** `Быков: %d, Коров: %d`. */
  function ScoreLine(r: GuessResult): string {
    "Быков: " + IntToString(r.bulls) + ", Коров: " + IntToString(r.cows)
  }

  /** The line revealing the secret at the end of a lost or abandoned session. */
  function RevealLine(secret: string): string {
    SecretIs + secret + "\n"
  }

  /** The line congratulating the winner, with the secret. */
  function WinLine(secret: string): string {
    YouDidIt + secret + "\n"
  }

  // ---------------------------------------------------------------- checking a line

  /**
   * The checks made on a non-empty line, in order: the length, then digits
   * only, then the number of distinct characters. The message of the first
   * that fails, or none.
   */
  function Rejection(guess: string, secretLength: int): Option<string> {
    if |guess| != secretLength then Some(LengthHint(secretLength))
    else if !MatchesDigits(guess) then Some(OnlyDigits)
    else if |CharSet(guess)| != secretLength then Some(NoRepeats)
    else None
  }

  /**
   * A non-empty line passes every check exactly when it is `secretLength`
   * ASCII digits with none repeated: just the lines `tryGuess` accepts and
   * scores as intended.
   */
  lemma RejectionNoneIff(guess: string, secretLength: int)
    requires guess != []
    ensures Rejection(guess, secretLength) == None <==> |guess| == secretLength && AllDigits(guess) && Distinct(guess)
  {
    CharSetSize(guess);
  }

  /** The checks come in a fixed order: a line of the wrong length is refused for its length, whatever its characters. */
  lemma RejectionOrder(guess: string, secretLength: int)
    ensures |guess| != secretLength ==> Rejection(guess, secretLength) == Some(LengthHint(secretLength))
    ensures |guess| == secretLength && !MatchesDigits(guess) ==> Rejection(guess, secretLength) == Some(OnlyDigits)
    ensures |guess| == secretLength && MatchesDigits(guess) && !Distinct(guess) ==> Rejection(guess, secretLength) == Some(NoRepeats)
  {
    CharSetSize(guess);
  }

  // ---------------------------------------------------------------- one attempt

  /** How the reads of one attempt end: a line that passed the checks, or the end of the session. */
  datatype AttemptEnd = Guess(guess: string) | Ended(outcome: Outcome)

  /** One attempt's reads: how they ended, where both scripts stand afterwards, what was printed. */
  datatype Attempt = Attempt(result: AttemptEnd, ep: nat, lp: nat, printed: seq<string>)

  /**
   * The inner loop of an attempt, from event `ep` and line `lp`, under the
   * status `status` (the same for every read of the attempt, since its
   * deadline is set once). No line (null) or a late line ends the session
   * on time; an empty line asks to confirm the exit, ending the session or
   * reading again; a line failing a check prints why and is read again.
   */
  function AttemptRun(events: seq<ReadEvent>, ep: nat, lines: seq<string>, lp: nat, status: string, secretLength: int, secret: string): (a: Attempt)
    requires ep <= |events| && lp <= |lines|
    ensures ep <= a.ep <= |events| && lp <= a.lp <= |lines|
    ensures a.result.Guess? ==> a.result.guess != [] && Rejection(a.result.guess, secretLength) == None
    ensures a.result.Ended? ==> a.result.outcome == TimedOut || a.result.outcome == LateInput || a.result.outcome == Aborted
    decreases |events| - ep
  {
    var e := NextEvent(events, ep);
    var read := DeadlineRead(GuessPrompt, status, e);
    var ep1 := AfterRead(events, ep);
    if read.line.None? then
      Attempt(Ended(TimedOut), ep1, lp, read.printed + [TimeOver + "\n"] + [RevealLine(secret)])
    else if e.Late? then
      Attempt(Ended(LateInput), ep1, lp, read.printed + [TimeOver + "\n"] + [RevealLine(secret)])
    else if read.line.value == [] then
      var c := YesNoRun(lines[lp..], ExitPrompt, false);
      if c.value then
        Attempt(Ended(Aborted), ep1, Skip(lp, c.consumed), read.printed + c.printed + [RevealLine(secret)])
      else
        var rest := AttemptRun(events, ep1, lines, Skip(lp, c.consumed), status, secretLength, secret);
        Attempt(rest.result, rest.ep, rest.lp, read.printed + c.printed + rest.printed)
    else
      match Rejection(read.line.value, secretLength)
      case Some(msg) =>
        var rest := AttemptRun(events, ep1, lines, lp, status, secretLength, secret);
        Attempt(rest.result, rest.ep, rest.lp, read.printed + [msg + "\n"] + rest.printed)
      case None =>
        Attempt(Guess(read.line.value), ep1, lp, read.printed)
  }

  /** One read of an attempt, case by case. */
  lemma AttemptStep(events: seq<ReadEvent>, ep: nat, lines: seq<string>, lp: nat, status: string, secretLength: int, secret: string)
    requires ep <= |events| && lp <= |lines|
    ensures var e := NextEvent(events, ep);
      var read := DeadlineRead(GuessPrompt, status, e);
      var ep1 := AfterRead(events, ep);
      var a := AttemptRun(events, ep, lines, lp, status, secretLength, secret);
      && (read.line.None? || e.Late? ==>
            a.ep == ep1 && a.lp == lp && a.printed == read.printed + [TimeOver + "\n"] + [RevealLine(secret)])
      && (read.line.None? ==> a.result == Ended(TimedOut))
      && (read.line.Some? && e.Late? ==> a.result == Ended(LateInput))
      && (read.line.Some? && !e.Late? ==> ep < |events|)
      && (read.line.Some? && !e.Late? && read.line.value == [] ==>
            var c := YesNoRun(lines[lp..], ExitPrompt, false);
            var rest := AttemptRun(events, ep1, lines, Skip(lp, c.consumed), status, secretLength, secret);
            && (c.value ==>
                  a.result == Ended(Aborted) && a.ep == ep1 && a.lp == Skip(lp, c.consumed)
                  && a.printed == read.printed + c.printed + [RevealLine(secret)])
            && (!c.value ==>
                  a.result == rest.result && a.ep == rest.ep && a.lp == rest.lp
                  && a.printed == read.printed + c.printed + rest.printed))
      && (read.line.Some? && !e.Late? && read.line.value != [] ==>
            var rest := AttemptRun(events, ep1, lines, lp, status, secretLength, secret);
            && (Rejection(read.line.value, secretLength).Some? ==>
                  a.result == rest.result && a.ep == rest.ep && a.lp == rest.lp
                  && a.printed == read.printed + [Rejection(read.line.value, secretLength).value + "\n"] + rest.printed)
            && (Rejection(read.line.value, secretLength).None? ==>
                  a.result == Guess(read.line.value) && a.ep == ep1 && a.lp == lp && a.printed == read.printed))
  {
  }

  // ---------------------------------------------------------------- the session

  /** A session from attempt `attemptsUsed + 1`: how it ends, the guesses scored, where both scripts stand, what was printed. */
  datatype Session = Session(outcome: Outcome, attemptsUsed: nat, ep: nat, lp: nat, printed: seq<string>)

  /**
   * The attempt loop of `hostGame` once the secret is generated: while
   * attempts are left, read one; a guess that passed the checks is scored
   * and counted; a guess with all bulls wins, any other prints its score.
   * With no attempts left the session is over.
   */
  function GameRun(events: seq<ReadEvent>, ep: nat, lines: seq<string>, lp: nat, attemptsUsed: nat, maxAttempts: int, secretLength: int, digits: seq<char>): (s: Session)
    requires ep <= |events| && lp <= |lines| && 0 <= secretLength <= |digits|
    ensures ep <= s.ep <= |events| && lp <= s.lp <= |lines|
    ensures attemptsUsed <= s.attemptsUsed
    ensures attemptsUsed <= maxAttempts ==> s.attemptsUsed <= maxAttempts
    ensures s.outcome == Won ==> attemptsUsed < s.attemptsUsed
    ensures s.outcome != Refused
    decreases maxAttempts - attemptsUsed
  {
    var secret := digits[..secretLength];
    if attemptsUsed >= maxAttempts then
      Session(Exhausted, attemptsUsed, ep, lp, [AttemptsOver + "\n"] + [RevealLine(secret)])
    else
      var a := AttemptRun(events, ep, lines, lp, StatusLabel(attemptsUsed + 1, maxAttempts), secretLength, secret);
      if a.result.Ended? then
        Session(a.result.outcome, attemptsUsed, a.ep, a.lp, a.printed)
      else
        var score := Score(digits, secretLength, a.result.guess, |a.result.guess|);
        if score.bulls == secretLength then
          Session(Won, attemptsUsed + 1, a.ep, a.lp, a.printed + [WinLine(secret)])
        else
          var rest := GameRun(events, a.ep, lines, a.lp, attemptsUsed + 1, maxAttempts, secretLength, digits);
          Session(rest.outcome, rest.attemptsUsed, rest.ep, rest.lp, a.printed + [ScoreLine(score) + "\n"] + rest.printed)
  }

  /** One attempt of the session, case by case. */
  lemma GameStep(events: seq<ReadEvent>, ep: nat, lines: seq<string>, lp: nat, attemptsUsed: nat, maxAttempts: int, secretLength: int, digits: seq<char>)
    requires ep <= |events| && lp <= |lines| && 0 <= secretLength <= |digits|
    requires attemptsUsed < maxAttempts
    ensures var secret := digits[..secretLength];
      var a := AttemptRun(events, ep, lines, lp, StatusLabel(attemptsUsed + 1, maxAttempts), secretLength, secret);
      var s := GameRun(events, ep, lines, lp, attemptsUsed, maxAttempts, secretLength, digits);
      && (a.result.Ended? ==>
            s.outcome == a.result.outcome && s.attemptsUsed == attemptsUsed && s.ep == a.ep && s.lp == a.lp && s.printed == a.printed)
      && (a.result.Guess? ==>
            var score := Score(digits, secretLength, a.result.guess, |a.result.guess|);
            var rest := GameRun(events, a.ep, lines, a.lp, attemptsUsed + 1, maxAttempts, secretLength, digits);
            && (score.bulls == secretLength ==>
                  s.outcome == Won && s.attemptsUsed == attemptsUsed + 1 && s.ep == a.ep && s.lp == a.lp
                  && s.printed == a.printed + [WinLine(secret)])
            && (score.bulls != secretLength ==>
                  s.outcome == rest.outcome && s.attemptsUsed == rest.attemptsUsed && s.ep == rest.ep && s.lp == rest.lp
                  && s.printed == a.printed + [ScoreLine(score) + "\n"] + rest.printed))
  {
  }

  // ---------------------------------------------------------------- properties of a session

  /** A guess that reaches `tryGuess` has exactly `secretLength` digits, none repeated, so `tryGuess` never refuses it. */
  lemma ScoredGuessIsWellFormed(events: seq<ReadEvent>, ep: nat, lines: seq<string>, lp: nat, status: string, secretLength: int, secret: string)
    requires ep <= |events| && lp <= |lines|
    ensures var a := AttemptRun(events, ep, lines, lp, status, secretLength, secret);
      a.result.Guess? ==> |a.result.guess| == secretLength && AllDigits(a.result.guess) && Distinct(a.result.guess)
  {
    var a := AttemptRun(events, ep, lines, lp, status, secretLength, secret);
    if a.result.Guess? {
      RejectionNoneIff(a.result.guess, secretLength);
    }
  }

  /**
   * No line, or a line after the deadline, ends the session at once: the
   * timeout notice and the secret are printed, nothing is scored and the
   * count of attempts stays as it was.
   */
  lemma NoLineEndsSession(events: seq<ReadEvent>, ep: nat, lines: seq<string>, lp: nat, attemptsUsed: nat, maxAttempts: int, secretLength: int, digits: seq<char>)
    requires ep <= |events| && lp <= |lines| && 0 <= secretLength <= |digits|
    requires attemptsUsed < maxAttempts
    ensures var e := NextEvent(events, ep);
      var read := DeadlineRead(GuessPrompt, StatusLabel(attemptsUsed + 1, maxAttempts), e);
      var s := GameRun(events, ep, lines, lp, attemptsUsed, maxAttempts, secretLength, digits);
      read.line.None? || e.Late? ==>
        && s.outcome == (if read.line.None? then TimedOut else LateInput)
        && s.attemptsUsed == attemptsUsed
        && s.printed == read.printed + [TimeOver + "\n"] + [RevealLine(digits[..secretLength])]
  {
    AttemptStep(events, ep, lines, lp, StatusLabel(attemptsUsed + 1, maxAttempts), secretLength, digits[..secretLength]);
    GameStep(events, ep, lines, lp, attemptsUsed, maxAttempts, secretLength, digits);
  }

  /**
   * Two positions from which the same attempt reads the same guess or ends
   * the same way, one printing `pre` more than the other, lead to the same
   * session with `pre` more output.
   */
  lemma SameAttemptSameSession(events: seq<ReadEvent>, lines: seq<string>, ep: nat, lp: nat, ep1: nat, lp1: nat, attemptsUsed: nat, maxAttempts: int, secretLength: int, digits: seq<char>, pre: seq<string>)
    requires ep <= |events| && lp <= |lines| && ep1 <= |events| && lp1 <= |lines| && 0 <= secretLength <= |digits|
    requires attemptsUsed < maxAttempts
    requires var status := StatusLabel(attemptsUsed + 1, maxAttempts);
      var a := AttemptRun(events, ep, lines, lp, status, secretLength, digits[..secretLength]);
      var a1 := AttemptRun(events, ep1, lines, lp1, status, secretLength, digits[..secretLength]);
      a.result == a1.result && a.ep == a1.ep && a.lp == a1.lp && a.printed == pre + a1.printed
    ensures var s := GameRun(events, ep, lines, lp, attemptsUsed, maxAttempts, secretLength, digits);
      var next := GameRun(events, ep1, lines, lp1, attemptsUsed, maxAttempts, secretLength, digits);
      s.outcome == next.outcome && s.attemptsUsed == next.attemptsUsed && s.printed == pre + next.printed
  {
    var status := StatusLabel(attemptsUsed + 1, maxAttempts);
    var secret := digits[..secretLength];
    GameStep(events, ep, lines, lp, attemptsUsed, maxAttempts, secretLength, digits);
    GameStep(events, ep1, lines, lp1, attemptsUsed, maxAttempts, secretLength, digits);
    var a1 := AttemptRun(events, ep1, lines, lp1, status, secretLength, secret);
    if a1.result.Guess? {
      var score := Score(digits, secretLength, a1.result.guess, |a1.result.guess|);
      if score.bulls != secretLength {
        var rest := GameRun(events, a1.ep, lines, a1.lp, attemptsUsed + 1, maxAttempts, secretLength, digits);
        AppendThree(pre, a1.printed, [ScoreLine(score) + "\n"], rest.printed);
      } else {
        AppendTwo(pre, a1.printed, [WinLine(secret)]);
      }
    }
  }

  /**
   * An empty line asks whether to leave. Yes ends the session with the
   * secret; no goes on with the same attempt: the same count of attempts
   * and the same status, from the next event and the next unread line.
   */
  lemma EmptyLineAsksToExit(events: seq<ReadEvent>, ep: nat, lines: seq<string>, lp: nat, attemptsUsed: nat, maxAttempts: int, secretLength: int, digits: seq<char>)
    requires ep <= |events| && lp <= |lines| && 0 <= secretLength <= |digits|
    requires attemptsUsed < maxAttempts
    requires var e := NextEvent(events, ep);
      !e.Late? && DeadlineRead(GuessPrompt, StatusLabel(attemptsUsed + 1, maxAttempts), e).line == Some([])
    ensures var read := DeadlineRead(GuessPrompt, StatusLabel(attemptsUsed + 1, maxAttempts), NextEvent(events, ep));
      var c := YesNoRun(lines[lp..], ExitPrompt, false);
      var s := GameRun(events, ep, lines, lp, attemptsUsed, maxAttempts, secretLength, digits);
      var next := GameRun(events, AfterRead(events, ep), lines, Skip(lp, c.consumed), attemptsUsed, maxAttempts, secretLength, digits);
      && (c.value ==>
            s.outcome == Aborted && s.attemptsUsed == attemptsUsed
            && s.printed == read.printed + c.printed + [RevealLine(digits[..secretLength])])
      && (!c.value ==>
            s.outcome == next.outcome && s.attemptsUsed == next.attemptsUsed
            && s.printed == read.printed + c.printed + next.printed)
  {
    var status := StatusLabel(attemptsUsed + 1, maxAttempts);
    var c := YesNoRun(lines[lp..], ExitPrompt, false);
    var read := DeadlineRead(GuessPrompt, status, NextEvent(events, ep));
    AttemptStep(events, ep, lines, lp, status, secretLength, digits[..secretLength]);
    if c.value {
      GameStep(events, ep, lines, lp, attemptsUsed, maxAttempts, secretLength, digits);
    } else {
      var a1 := AttemptRun(events, AfterRead(events, ep), lines, Skip(lp, c.consumed), status, secretLength, digits[..secretLength]);
      AppendTwo(read.printed, c.printed, a1.printed);
      SameAttemptSameSession(events, lines, ep, lp, AfterRead(events, ep), Skip(lp, c.consumed), attemptsUsed, maxAttempts, secretLength, digits, read.printed + c.printed);
    }
  }

  /**
   * A line refused by a check prints why and goes on with the same
   * attempt: the same count of attempts and the same status, from the next
   * event.
   */
  lemma RejectedLineRepeatsAttempt(events: seq<ReadEvent>, ep: nat, lines: seq<string>, lp: nat, attemptsUsed: nat, maxAttempts: int, secretLength: int, digits: seq<char>)
    requires ep <= |events| && lp <= |lines| && 0 <= secretLength <= |digits|
    requires attemptsUsed < maxAttempts
    requires var e := NextEvent(events, ep);
      var read := DeadlineRead(GuessPrompt, StatusLabel(attemptsUsed + 1, maxAttempts), e);
      !e.Late? && read.line.Some? && read.line.value != [] && Rejection(read.line.value, secretLength).Some?
    ensures var read := DeadlineRead(GuessPrompt, StatusLabel(attemptsUsed + 1, maxAttempts), NextEvent(events, ep));
      var msg := Rejection(read.line.value, secretLength).value;
      var s := GameRun(events, ep, lines, lp, attemptsUsed, maxAttempts, secretLength, digits);
      var next := GameRun(events, AfterRead(events, ep), lines, lp, attemptsUsed, maxAttempts, secretLength, digits);
      s.outcome == next.outcome && s.attemptsUsed == next.attemptsUsed
      && s.printed == read.printed + [msg + "\n"] + next.printed
  {
    var status := StatusLabel(attemptsUsed + 1, maxAttempts);
    var read := DeadlineRead(GuessPrompt, status, NextEvent(events, ep));
    var m := [Rejection(read.line.value, secretLength).value + "\n"];
    AttemptStep(events, ep, lines, lp, status, secretLength, digits[..secretLength]);
    var a1 := AttemptRun(events, AfterRead(events, ep), lines, lp, status, secretLength, digits[..secretLength]);
    AppendTwo(read.printed, m, a1.printed);
    SameAttemptSameSession(events, lines, ep, lp, AfterRead(events, ep), lp, attemptsUsed, maxAttempts, secretLength, digits, read.printed + m);
  }

  /**
   * The session is won on the attempt that reads guess `g` exactly when
   * `g` is the secret: that attempt is then the last one counted.
   * Otherwise the score is printed and play goes on.
   */
  lemma {:induction false} GuessWinsIffSecret(events: seq<ReadEvent>, ep: nat, lines: seq<string>, lp: nat, attemptsUsed: nat, maxAttempts: int, secretLength: int, digits: seq<char>)
    requires ep <= |events| && lp <= |lines| && 0 <= secretLength <= 10 && |digits| == 10 && IsDigitPermutation(digits)
    requires attemptsUsed < maxAttempts
    requires AttemptRun(events, ep, lines, lp, StatusLabel(attemptsUsed + 1, maxAttempts), secretLength, digits[..secretLength]).result.Guess?
    ensures var g := AttemptRun(events, ep, lines, lp, StatusLabel(attemptsUsed + 1, maxAttempts), secretLength, digits[..secretLength]).result.guess;
      var s := GameRun(events, ep, lines, lp, attemptsUsed, maxAttempts, secretLength, digits);
      s.outcome == Won && s.attemptsUsed == attemptsUsed + 1 <==> g == digits[..secretLength]
  {
    var a := AttemptRun(events, ep, lines, lp, StatusLabel(attemptsUsed + 1, maxAttempts), secretLength, digits[..secretLength]);
    GameStep(events, ep, lines, lp, attemptsUsed, maxAttempts, secretLength, digits);
    RejectionNoneIff(a.result.guess, secretLength);
    WinIffSecret(digits, secretLength, a.result.guess);
  }

  /**
   * The count of attempts never passes `maxAttempts`, and the attempts run
   * out only once all of them are counted. A session that counted all its
   * attempts was won on the last one or ran out.
   */
  lemma {:induction false} ExhaustedAfterAll(events: seq<ReadEvent>, ep: nat, lines: seq<string>, lp: nat, attemptsUsed: nat, maxAttempts: int, secretLength: int, digits: seq<char>)
    requires ep <= |events| && lp <= |lines| && 0 <= secretLength <= |digits|
    requires attemptsUsed <= maxAttempts
    ensures var s := GameRun(events, ep, lines, lp, attemptsUsed, maxAttempts, secretLength, digits);
      && s.attemptsUsed <= maxAttempts
      && (s.outcome == Exhausted ==> s.attemptsUsed == maxAttempts)
      && (s.attemptsUsed == maxAttempts ==> s.outcome == Won || s.outcome == Exhausted)
    decreases maxAttempts - attemptsUsed
  {
    if attemptsUsed < maxAttempts {
      GameStep(events, ep, lines, lp, attemptsUsed, maxAttempts, secretLength, digits);
      var a := AttemptRun(events, ep, lines, lp, StatusLabel(attemptsUsed + 1, maxAttempts), secretLength, digits[..secretLength]);
      if a.result.Guess? {
        ExhaustedAfterAll(events, a.ep, lines, a.lp, attemptsUsed + 1, maxAttempts, secretLength, digits);
      }
    }
  }

  /** The last two lines of `p` are `x` and `y`. */
  predicate EndsWithTwo(p: seq<string>, x: string, y: string) {
    |p| >= 2 && p[|p| - 2] == x && p[|p| - 1] == y
  }

  lemma EndsWithTwoAfter(pre: seq<string>, p: seq<string>, x: string, y: string)
    requires EndsWithTwo(p, x, y)
    ensures EndsWithTwo(pre + p, x, y)
  {
  }

  /** A session whose attempts ran out ends with `Попытки закончились.` and the secret. */
  lemma {:induction false} ExhaustedNotice(events: seq<ReadEvent>, ep: nat, lines: seq<string>, lp: nat, attemptsUsed: nat, maxAttempts: int, secretLength: int, digits: seq<char>)
    requires ep <= |events| && lp <= |lines| && 0 <= secretLength <= |digits|
    ensures var s := GameRun(events, ep, lines, lp, attemptsUsed, maxAttempts, secretLength, digits);
      s.outcome == Exhausted ==> EndsWithTwo(s.printed, AttemptsOver + "\n", RevealLine(digits[..secretLength]))
    decreases maxAttempts - attemptsUsed
  {
    if attemptsUsed < maxAttempts {
      var a := AttemptRun(events, ep, lines, lp, StatusLabel(attemptsUsed + 1, maxAttempts), secretLength, digits[..secretLength]);
      if a.result.Guess? {
        var score := Score(digits, secretLength, a.result.guess, |a.result.guess|);
        if score.bulls != secretLength {
          var rest := GameRun(events, a.ep, lines, a.lp, attemptsUsed + 1, maxAttempts, secretLength, digits);
          ExhaustedNotice(events, a.ep, lines, a.lp, attemptsUsed + 1, maxAttempts, secretLength, digits);
          if rest.outcome == Exhausted {
            EndsWithTwoAfter(a.printed + [ScoreLine(score) + "\n"], rest.printed, AttemptsOver + "\n", RevealLine(digits[..secretLength]));
          }
        }
      }
    }
  }

  // ---------------------------------------------------------------- the secret is shown once, at the end

  predicate StartsWith(c: string, lead: string) {
    |lead| <= |c| && c[..|lead|] == lead
  }

  /** A printed line that shows the secret: it opens with the ending or with the congratulation. */
  predicate ShowsSecret(c: string) {
    StartsWith(c, SecretIs) || StartsWith(c, YouDidIt)
  }

  /** No printed line shows the secret. */
  predicate Quiet(p: seq<string>) {
    forall k :: 0 <= k < |p| ==> !ShowsSecret(p[k])
  }

  /** Output whose last line, and only that line, shows the secret. */
  predicate ShownOnceAtEnd(p: seq<string>) {
    p != [] && Quiet(p[..|p| - 1]) && ShowsSecret(p[|p| - 1])
  }

  /** A line that differs from each lead-in at some position does not show the secret. */
  lemma DiffersFromLeads(c: string, i: nat, j: nat)
    requires i < |c| && i < |SecretIs| && c[i] != SecretIs[i]
    requires j < |c| && j < |YouDidIt| && c[j] != YouDidIt[j]
    ensures !ShowsSecret(c)
  {
  }

  /** The ending and the congratulation both show the secret. */
  lemma SecretLinesShow(secret: string)
    ensures ShowsSecret(RevealLine(secret)) && ShowsSecret(WinLine(secret))
  {
    assert RevealLine(secret)[..|SecretIs|] == SecretIs;
    assert WinLine(secret)[..|YouDidIt|] == YouDidIt;
  }

  lemma QuietAppend(a: seq<string>, b: seq<string>)
    requires Quiet(a) && Quiet(b)
    ensures Quiet(a + b)
  {
    forall k | 0 <= k < |a + b|
      ensures !ShowsSecret((a + b)[k])
    {
      if k >= |a| {
        assert (a + b)[k] == b[k - |a|];
      }
    }
  }

  /** Output that shows the secret once, in its last line, and that line is `x`. */
  predicate ShownLast(p: seq<string>, x: string) {
    ShownOnceAtEnd(p) && p[|p| - 1] == x
  }

  /** A single line that shows the secret. */
  lemma ShownAlone(x: string)
    requires ShowsSecret(x)
    ensures ShownLast([x], x)
  {
    assert [x][..0] == [];
  }

  /** Quiet output followed by output that shows the secret once at the end shows it once at the end. */
  lemma QuietThenShown(a: seq<string>, b: seq<string>, x: string)
    requires Quiet(a) && ShownLast(b, x)
    ensures ShownLast(a + b, x)
  {
    assert (a + b)[..|a + b| - 1] == a + b[..|b| - 1];
    QuietAppend(a, b[..|b| - 1]);
  }

  /** Quiet output, a line that shows nothing, then output that shows the secret once at the end. */
  lemma QuietLineThenShown(a: seq<string>, line: string, b: seq<string>, x: string)
    requires Quiet(a) && ShownLast(b, x)
    requires line != [] && line[0] != SecretIs[0] && line[0] != YouDidIt[0]
    ensures ShownLast(a + [line] + b, x)
  {
    DiffersFromLeads(line, 0, 0);
    QuietAppend(a, [line]);
    QuietThenShown(a + [line], b, x);
  }

  /** What a timed read for a guess prints never shows the secret: the status, the prompt, redraws and the timeout notice. */
  lemma DeadlineReadQuiet(status: string, e: ReadEvent)
    requires status != [] && status[0] == 'П'
    ensures Quiet(DeadlineRead(GuessPrompt, status, e).printed)
  {
    var k := Expiry(e.ticks);
    var opening := Opening(GuessPrompt, status);
    var cd := Countdown(status, e.ticks[..k]);
    DiffersFromLeads(opening[1], 0, 0);
    DiffersFromLeads(opening[2], 0, 0);
    assert Quiet(opening);
    forall j | 0 <= j < |cd|
      ensures !ShowsSecret(cd[j])
    {
      DiffersFromLeads(cd[j], 0, 0);
    }
    QuietAppend(opening, cd);
    var tail := TimeoutTail(status);
    DiffersFromLeads(tail[0], 0, 0);
    DiffersFromLeads(tail[2], 0, 0);
    assert Quiet(tail);
    QuietAppend(opening + cd, tail);
  }

  /** The exit question and its re-asks never show the secret. */
  lemma ExitQuestionQuiet(input: seq<string>)
    ensures Quiet(YesNoRun(input, ExitPrompt, false).printed)
  {
    var p := YesNoRun(input, ExitPrompt, false).printed;
    YesNoLoopPrints(ReadAnswers(input), ExitPrompt, false);
    DiffersFromLeads(ExitPrompt, 0, 3);
    DiffersFromLeads(AnswerYesNo + "\n", 0, 0);
  }

  /** No message for a refused line shows the secret. */
  lemma RejectionQuiet(guess: string, secretLength: int)
    requires Rejection(guess, secretLength).Some?
    ensures !ShowsSecret(Rejection(guess, secretLength).value + "\n")
  {
    var m := Rejection(guess, secretLength).value + "\n";
    if m[0] == 'Т' {
      DiffersFromLeads(m, 0, 1);
    } else {
      DiffersFromLeads(m, 0, 0);
    }
  }

  /**
   * An attempt prints nothing that shows the secret until it ends the
   * session, and then its last line, and only that, is the ending.
   */
  lemma {:induction false} AttemptRevealsOnlyAtEnd(events: seq<ReadEvent>, ep: nat, lines: seq<string>, lp: nat, status: string, secretLength: int, secret: string)
    requires ep <= |events| && lp <= |lines| && status != [] && status[0] == 'П'
    ensures var a := AttemptRun(events, ep, lines, lp, status, secretLength, secret);
      && (a.result.Guess? ==> Quiet(a.printed))
      && (a.result.Ended? ==> ShownLast(a.printed, RevealLine(secret)))
    decreases |events| - ep
  {
    var e := NextEvent(events, ep);
    var read := DeadlineRead(GuessPrompt, status, e);
    var ep1 := AfterRead(events, ep);
    var ending := [RevealLine(secret)];
    AttemptStep(events, ep, lines, lp, status, secretLength, secret);
    DeadlineReadQuiet(status, e);
    SecretLinesShow(secret);
    ShownAlone(RevealLine(secret));
    if read.line.None? || e.Late? {
      DiffersFromLeads(TimeOver + "\n", 0, 0);
      QuietThenShown(read.printed + [TimeOver + "\n"], ending, RevealLine(secret));
    } else if read.line.value == [] {
      var c := YesNoRun(lines[lp..], ExitPrompt, false);
      ExitQuestionQuiet(lines[lp..]);
      QuietAppend(read.printed, c.printed);
      if c.value {
        QuietThenShown(read.printed + c.printed, ending, RevealLine(secret));
      } else {
        var rest := AttemptRun(events, ep1, lines, Skip(lp, c.consumed), status, secretLength, secret);
        AttemptRevealsOnlyAtEnd(events, ep1, lines, Skip(lp, c.consumed), status, secretLength, secret);
        if rest.result.Guess? {
          QuietAppend(read.printed + c.printed, rest.printed);
        } else {
          QuietThenShown(read.printed + c.printed, rest.printed, RevealLine(secret));
        }
      }
    } else if Rejection(read.line.value, secretLength).Some? {
      var m := [Rejection(read.line.value, secretLength).value + "\n"];
      RejectionQuiet(read.line.value, secretLength);
      QuietAppend(read.printed, m);
      var rest := AttemptRun(events, ep1, lines, lp, status, secretLength, secret);
      AttemptRevealsOnlyAtEnd(events, ep1, lines, lp, status, secretLength, secret);
      if rest.result.Guess? {
        QuietAppend(read.printed + m, rest.printed);
      } else {
        QuietThenShown(read.printed + m, rest.printed, RevealLine(secret));
      }
    }
  }

  /**
   * Every session that got as far as its secret ends by showing it exactly
   * once, in its last line: the congratulation when won, the ending
   * otherwise.
   */
  lemma {:induction false} SecretShownOnceAtEnd(events: seq<ReadEvent>, ep: nat, lines: seq<string>, lp: nat, attemptsUsed: nat, maxAttempts: int, secretLength: int, digits: seq<char>)
    requires ep <= |events| && lp <= |lines| && 0 <= secretLength <= |digits|
    ensures var s := GameRun(events, ep, lines, lp, attemptsUsed, maxAttempts, secretLength, digits);
      ShownLast(s.printed, if s.outcome == Won then WinLine(digits[..secretLength]) else RevealLine(digits[..secretLength]))
    decreases maxAttempts - attemptsUsed
  {
    var secret := digits[..secretLength];
    SecretLinesShow(secret);
    if attemptsUsed >= maxAttempts {
      DiffersFromLeads(AttemptsOver + "\n", 0, 0);
      ShownAlone(RevealLine(secret));
      QuietThenShown([AttemptsOver + "\n"], [RevealLine(secret)], RevealLine(secret));
    } else {
      var status := StatusLabel(attemptsUsed + 1, maxAttempts);
      var a := AttemptRun(events, ep, lines, lp, status, secretLength, secret);
      GameStep(events, ep, lines, lp, attemptsUsed, maxAttempts, secretLength, digits);
      AttemptRevealsOnlyAtEnd(events, ep, lines, lp, status, secretLength, secret);
      if a.result.Guess? {
        var score := Score(digits, secretLength, a.result.guess, |a.result.guess|);
        if score.bulls == secretLength {
          ShownAlone(WinLine(secret));
          QuietThenShown(a.printed, [WinLine(secret)], WinLine(secret));
        } else {
          var rest := GameRun(events, a.ep, lines, a.lp, attemptsUsed + 1, maxAttempts, secretLength, digits);
          SecretShownOnceAtEnd(events, a.ep, lines, a.lp, attemptsUsed + 1, maxAttempts, secretLength, digits);
          QuietLineThenShown(a.printed, ScoreLine(score) + "\n", rest.printed,
            if rest.outcome == Won then WinLine(secret) else RevealLine(secret));
        }
      }
    }
  }

  // ---------------------------------------------------------------- the host object

  /** `GameHost`: the game it runs and the terminal it talks through. */
  class GameHost {
    const game: BullsCowsGame
    const tui: GameTui

    constructor(game: BullsCowsGame, tui: GameTui)
      ensures this.game == game && this.tui == tui
    {
      this.game := game;
      this.tui := tui;
    }

    /**
     * The inner loop of one attempt of `hostGame`: reads under the
     * attempt's status until a line passes the checks or the session ends.
     * Whether a line came in late is what the clock says after the read;
     * here the event says it.
     */
    method ReadGuess(status: string, secretLength: int) returns (r: AttemptEnd)
      requires game.Valid() && tui.Valid()
      modifies tui`epos, tui`pos, tui`out
      ensures tui.Valid()
      ensures var a := AttemptRun(tui.events, old(tui.epos), tui.lines, old(tui.pos), status, secretLength, game.Secret());
        r == a.result && tui.epos == a.ep && tui.pos == a.lp && tui.out == old(tui.out) + a.printed
    {
      ghost var total := AttemptRun(tui.events, tui.epos, tui.lines, tui.pos, status, secretLength, game.Secret());
      ghost var out0 := tui.out;
      while true
        invariant tui.Valid()
        invariant var a := AttemptRun(tui.events, tui.epos, tui.lines, tui.pos, status, secretLength, game.Secret());
          total.result == a.result && total.ep == a.ep && total.lp == a.lp && out0 + total.printed == tui.out + a.printed
        decreases |tui.events| - tui.epos
      {
        ghost var ep, lp, outBefore := tui.epos, tui.pos, tui.out;
        AttemptStep(tui.events, ep, tui.lines, lp, status, secretLength, game.Secret());
        var late := NextEvent(tui.events, tui.epos).Late?;
        var line := tui.ReadLineWithDeadline(GuessPrompt, status);
        ghost var read := DeadlineRead(GuessPrompt, status, NextEvent(tui.events, ep));
        if line.None? || late {
          tui.Println(TimeOver);
          var secret := game.GetSecretNumber();
          tui.Println(SecretIs + secret);
          AppendThree(outBefore, read.printed, [TimeOver + "\n"], [RevealLine(secret)]);
          return if line.None? then Ended(TimedOut) else Ended(LateInput);
        }
        var guess := line.value;
        if guess == [] {
          var yes := tui.ConfirmExit();
          ghost var c := YesNoRun(tui.lines[lp..], ExitPrompt, false);
          if yes {
            var secret := game.GetSecretNumber();
            tui.Println(SecretIs + secret);
            AppendThree(outBefore, read.printed, c.printed, [RevealLine(secret)]);
            return Ended(Aborted);
          }
          AppendThree(outBefore, read.printed, c.printed, AttemptRun(tui.events, tui.epos, tui.lines, tui.pos, status, secretLength, game.Secret()).printed);
          continue;
        }
        ghost var rest := AttemptRun(tui.events, tui.epos, tui.lines, tui.pos, status, secretLength, game.Secret());
        if |guess| != secretLength {
          tui.Println(LengthHint(secretLength));
          AppendThree(outBefore, read.printed, [LengthHint(secretLength) + "\n"], rest.printed);
          continue;
        }
        if !MatchesDigits(guess) {
          tui.Println(OnlyDigits);
          AppendThree(outBefore, read.printed, [OnlyDigits + "\n"], rest.printed);
          continue;
        }
        if |CharSet(guess)| != secretLength {
          tui.Println(NoRepeats);
          AppendThree(outBefore, read.printed, [NoRepeats + "\n"], rest.printed);
          continue;
        }
        return Guess(guess);
      }
    }

    /**
     * `hostGame(params)`: generates the secret (refused, with nothing
     * printed, for a length outside 1..10), then runs the attempts. The
     * shuffle is left open, so the session is stated over the list as it
     * came out of it.
     */
    method HostGame(params: GameParameters) returns (result: SessionResult)
      requires game.Valid() && tui.Valid()
      modifies game, tui`epos, tui`pos, tui`out
      ensures game.Valid() && tui.Valid()
      ensures params.secretLength < 1 || params.secretLength > 10 ==>
        && result.outcome == Refused && result.attemptsUsed == 0
        && game.digits == old(game.digits) && game.secretLength == old(game.secretLength)
        && tui.epos == old(tui.epos) && tui.pos == old(tui.pos) && tui.out == old(tui.out)
      ensures 1 <= params.secretLength <= 10 ==>
        && game.secretLength == params.secretLength && multiset(game.digits) == multiset(old(game.digits))
        && var s := GameRun(tui.events, old(tui.epos), tui.lines, old(tui.pos), 0, params.maxAttempts, params.secretLength, game.digits);
          && result.outcome == s.outcome && result.attemptsUsed == s.attemptsUsed
          && tui.epos == s.ep && tui.pos == s.lp && tui.out == old(tui.out) + s.printed
    {
      var generated := game.GenerateSecretNumber(params.secretLength);
      if generated.Err? {
        return SessionResult(Refused, 0);
      }
      result := PlayAttempts(params.maxAttempts, params.secretLength);
    }

    /** The attempt loop of `hostGame`, once the secret is generated. */
    method PlayAttempts(maxAttempts: int, secretLength: int) returns (result: SessionResult)
      requires game.Valid() && tui.Valid() && game.secretLength == secretLength
      modifies tui`epos, tui`pos, tui`out
      ensures tui.Valid()
      ensures var s := GameRun(tui.events, old(tui.epos), tui.lines, old(tui.pos), 0, maxAttempts, secretLength, game.digits);
        && result.outcome == s.outcome && result.attemptsUsed == s.attemptsUsed
        && tui.epos == s.ep && tui.pos == s.lp && tui.out == old(tui.out) + s.printed
    {
      ghost var digits := game.digits;
      ghost var total := GameRun(tui.events, tui.epos, tui.lines, tui.pos, 0, maxAttempts, secretLength, digits);
      ghost var out0 := tui.out;
      var attemptsUsed := 0;
      while attemptsUsed < maxAttempts
        invariant game.Valid() && tui.Valid()
        invariant game.digits == digits && game.secretLength == secretLength
        invariant var s := GameRun(tui.events, tui.epos, tui.lines, tui.pos, attemptsUsed, maxAttempts, secretLength, digits);
          && total.outcome == s.outcome && total.attemptsUsed == s.attemptsUsed
          && total.ep == s.ep && total.lp == s.lp && out0 + total.printed == tui.out + s.printed
        decreases maxAttempts - attemptsUsed
      {
        ghost var ep, lp, outBefore := tui.epos, tui.pos, tui.out;
        GameStep(tui.events, ep, tui.lines, lp, attemptsUsed, maxAttempts, secretLength, digits);
        var status := StatusLabel(attemptsUsed + 1, maxAttempts);
        var attempt := ReadGuess(status, secretLength);
        ghost var a := AttemptRun(tui.events, ep, tui.lines, lp, status, secretLength, digits[..secretLength]);
        if attempt.Ended? {
          return SessionResult(attempt.outcome, attemptsUsed);
        }
        var scored := game.TryGuess(attempt.guess);
        attemptsUsed := attemptsUsed + 1;
        if scored.value.bulls == secretLength {
          var secret := game.GetSecretNumber();
          tui.Println(YouDidIt + secret);
          AppendTwo(outBefore, a.printed, [WinLine(secret)]);
          return SessionResult(Won, attemptsUsed);
        }
        tui.Println(ScoreLine(scored.value));
        ghost var rest := GameRun(tui.events, tui.epos, tui.lines, tui.pos, attemptsUsed, maxAttempts, secretLength, digits);
        AppendThree(outBefore, a.printed, [ScoreLine(scored.value) + "\n"], rest.printed);
      }
      ghost var outBefore := tui.out;
      tui.Println(AttemptsOver);
      var secret := game.GetSecretNumber();
      tui.Println(SecretIs + secret);
      AppendTwo(outBefore, [AttemptsOver + "\n"], [RevealLine(secret)]);
      result := SessionResult(Exhausted, attemptsUsed);
    }
  }
}
