/**
 * The terminal front end (`GameTui`): prompts that read whole lines
 * (`askInt`, `askYesNo`, `confirmExit`, `chooseGameParameters`), the read
 * that races a deadline (`readLineWithDeadline`) and the status line it
 * redraws in place.
 *
 * The input stream is a script of lines for the prompts and a script of
 * read events for the timed reads; output is the sequence of chunks handed
 * to `print`/`println`, where `println(x)` hands over `x + "\n"`.
 */
module Tui {
  import opened Common
  import opened JavaText
  import opened Parameters

  // ---------------------------------------------------------------- status line

  /** The ANSI sequences the status redraw uses. */
  const SaveCursor: string := "\U{1B}[s"
  const RestoreCursor: string := "\U{1B}[u"
  const ClearLine: string := "\U{1B}[2K"
  const CursorUp1: string := "\U{1B}[1A"

  /** What precedes the status text in a redraw: save cursor, up one row, carriage return, clear the row. */
  const RedrawLead: string := SaveCursor + CursorUp1 + "\r" + ClearLine

  /** `redrawStatusLine(t)`: the six pieces it prints, joined. */
  function StatusRedraw(t: string): (r: string)
    ensures |r| == |t| + 15 && r[0] == '\U{1B}'
  {
    SaveCursor + CursorUp1 + "\r" + ClearLine + t + RestoreCursor
  }

  /**
   * The redraw prints, in order, save cursor, cursor up one row, carriage
   * return, clear row, the text and restore cursor: the caller's cursor is
   * saved first and restored last, so partly typed input on the row below is
   * left where it was. A text without a line break gives a redraw without one.
   */
  lemma StatusRedrawShape(t: string)
    ensures var r := StatusRedraw(t);
      && r[..3] == SaveCursor && r[3..7] == CursorUp1 && r[7] == '\r' && r[8..12] == ClearLine
      && r[12..|r| - 3] == t && r[|r| - 3..] == RestoreCursor
      && ('\n' !in t ==> '\n' !in r)
  {
    var r := StatusRedraw(t);
    assert r[12..|r| - 3] == t;
  }

  /** Reads the status text back out of a redraw, as a test capturing the terminal would. */
  function RedrawnText(r: string): Option<string> {
    if |r| >= 15 && r[..12] == RedrawLead && r[|r| - 3..] == RestoreCursor then Some(r[12..|r| - 3]) else None
  }

  /** A redraw shows exactly the text it was given. */
  lemma RedrawRoundTrip(t: string)
    ensures RedrawnText(StatusRedraw(t)) == Some(t)
  {
    var r := StatusRedraw(t);
    StatusRedrawShape(t);
    assert r[..12] == r[..3] + r[3..7] + [r[7]] + r[8..12];
  }

  /** Java's `/` on `long`: the quotient truncated toward zero. */
  function JavaDiv(a: int, b: int): (q: int)
    requires b > 0
  {
    if a >= 0 then a / b else -((-a) / b)
  }

  /** `(int) Math.max(0L, (remainingMs + 999L) / 1000L)`. */
  function RemainingSeconds(remainingMs: int): (secs: int)
    ensures secs >= 0
  {
    var q := JavaDiv(remainingMs + 999, 1000);
    if q > 0 then q else 0
  }

  /** For time left, the seconds shown are the ceiling of the milliseconds left, so never 0; with none left, 0. */
  lemma RemainingSecondsIsCeiling(remainingMs: int)
    ensures remainingMs > 0 ==> RemainingSeconds(remainingMs) >= 1
    ensures remainingMs > 0 ==> (RemainingSeconds(remainingMs) - 1) * 1000 < remainingMs <= RemainingSeconds(remainingMs) * 1000
    ensures remainingMs <= 0 ==> RemainingSeconds(remainingMs) == 0
  {
    var s := RemainingSeconds(remainingMs);
    if remainingMs > 0 {
      var q := (remainingMs + 999) / 1000;
      assert q * 1000 <= remainingMs + 999 < q * 1000 + 1000;
      assert s == q;
    } else if remainingMs + 999 >= 0 {
      assert (remainingMs + 999) / 1000 == 0;
    } else {
      assert (-(remainingMs + 999)) / 1000 >= 0;
    }
  }

  /** The status text at one countdown tick: prefix, a space, the seconds left, `с`. */
  function StatusText(statusPrefix: string, remainingMs: int): string {
    statusPrefix + " " + IntToString(RemainingSeconds(remainingMs)) + "с"
  }

  /** Once the deadline has passed the countdown text is the one the timeout prints, `" 0с"`. */
  lemma StatusTextAtDeadline(statusPrefix: string, remainingMs: int)
    requires remainingMs <= 0
    ensures StatusText(statusPrefix, remainingMs) == statusPrefix + " 0с"
  {
    RemainingSecondsIsCeiling(remainingMs);
    assert IntToString(0) == "0";
  }

  // ---------------------------------------------------------------- timed reads

  /**
   * What one `readLineWithDeadline` call sees. `ticks` are the milliseconds
   * left at each countdown redraw before the call ends.
   * - `Timeout`: the deadline passed with no input; the call returns null.
   * - `Interrupted`: the wait was interrupted, or the stream ended; the call
   *   returns null without printing the timeout notice.
   * - `Line`: a line arrived and the caller's clock check after the call
   *   finds the deadline not yet passed.
   * - `Late`: a line arrived but the caller's clock check finds the deadline passed.
   */
  datatype ReadEvent =
    | Timeout(ticks: seq<int>)
    | Interrupted(ticks: seq<int>)
    | Line(ticks: seq<int>, text: string)
    | Late(ticks: seq<int>, text: string)

  /** The countdown redraws, one per tick. */
  function Countdown(statusPrefix: string, ticks: seq<int>): (r: seq<string>)
    ensures |r| == |ticks|
    ensures forall k :: 0 <= k < |ticks| ==> r[k] == StatusRedraw(StatusText(statusPrefix, ticks[k]))
  {
    seq(|ticks|, k requires 0 <= k < |ticks| => StatusRedraw(StatusText(statusPrefix, ticks[k])))
  }

  const TimeIsUp: string := "Время вышло."

  /** The position of the first tick at which no time was left: the loop's timeout check fires there. */
  function Expiry(ticks: seq<int>): (k: nat)
    ensures k <= |ticks|
    ensures forall j :: 0 <= j < k ==> ticks[j] > 0
    ensures k < |ticks| ==> ticks[k] <= 0
  {
    if ticks == [] || ticks[0] <= 0 then 0 else 1 + Expiry(ticks[1..])
  }

  /** The first tick with no time left is the only position with every earlier tick positive and itself not. */
  lemma ExpiryIsFirst(ticks: seq<int>, k: nat)
    requires k <= |ticks| && (k < |ticks| ==> ticks[k] <= 0)
    requires forall j :: 0 <= j < k ==> ticks[j] > 0
    ensures Expiry(ticks) == k
  {
  }

  /** What a timed read prints before waiting: a blank line, the status prefix on its own row, the prompt. */
  function Opening(prompt: string, statusPrefix: string): seq<string> {
    ["\n", statusPrefix + "\n", prompt]
  }

  /** What a timed read prints when time is up: the `0с` redraw, a line break, the notice. */
  function TimeoutTail(statusPrefix: string): seq<string> {
    [StatusRedraw(statusPrefix + " 0с"), "\n", TimeIsUp + "\n"]
  }

  /** What a timed read prints after a countdown whose every tick had time left: the timeout's lines, or nothing. */
  function WaitTail(e: ReadEvent, statusPrefix: string): seq<string> {
    if e.Timeout? then TimeoutTail(statusPrefix) else []
  }

  /** What one `readLineWithDeadline` call returns (a line, or null) and prints. */
  datatype TimedRead = TimedRead(line: Option<string>, printed: seq<string>)

  /**
   * `readLineWithDeadline` on one event: blank line, status, prompt, a
   * countdown redraw per tick while time is left; then either the timeout
   * (a `0с` redraw, a line break and the notice, and null), or null on an
   * interrupt, or the line.
   */
  function DeadlineRead(prompt: string, statusPrefix: string, e: ReadEvent): (r: TimedRead)
    ensures r.line.Some? <==> Expiry(e.ticks) == |e.ticks| && (e.Line? || e.Late?)
    ensures r.line.Some? ==> r.line.value == e.text
  {
    var k := Expiry(e.ticks);
    var shown := Opening(prompt, statusPrefix) + Countdown(statusPrefix, e.ticks[..k]);
    if k < |e.ticks| || e.Timeout? then TimedRead(None, shown + TimeoutTail(statusPrefix))
    else if e.Interrupted? then TimedRead(None, shown)
    else TimedRead(Some(e.text), shown)
  }

  /**
   * The event the next timed read sees. Once the script is used up, no line
   * ever arrives, so the read waits out its deadline.
   */
  function NextEvent(events: seq<ReadEvent>, epos: nat): ReadEvent {
    if epos < |events| then events[epos] else Timeout([])
  }

  /** Where the event script stands after one timed read: one further on, unless it was used up. */
  function AfterRead(events: seq<ReadEvent>, epos: nat): nat {
    if epos < |events| then epos + 1 else epos
  }

  /** The read ends at tick `i`, the first with no time left: the timeout. */
  lemma DeadlineExpires(prompt: string, statusPrefix: string, e: ReadEvent, i: nat)
    requires i < |e.ticks| && e.ticks[i] <= 0
    requires forall j :: 0 <= j < i ==> e.ticks[j] > 0
    ensures DeadlineRead(prompt, statusPrefix, e).line == None
    ensures DeadlineRead(prompt, statusPrefix, e).printed
      == Opening(prompt, statusPrefix) + Countdown(statusPrefix, e.ticks[..i]) + TimeoutTail(statusPrefix)
  {
    assert Expiry(e.ticks) == i;
  }

  /** Every tick had time left: a line arrives, the wait is interrupted, or the deadline is reached after the last tick. */
  lemma DeadlineOutlasted(prompt: string, statusPrefix: string, e: ReadEvent)
    requires forall j :: 0 <= j < |e.ticks| ==> e.ticks[j] > 0
    ensures var r := DeadlineRead(prompt, statusPrefix, e);
      var shown := Opening(prompt, statusPrefix) + Countdown(statusPrefix, e.ticks);
      && r.line == (if e.Line? || e.Late? then Some(e.text) else None)
      && r.printed == shown + WaitTail(e, statusPrefix)
  {
    assert Expiry(e.ticks) == |e.ticks|;
    assert e.ticks[..|e.ticks|] == e.ticks;
  }

  /** A countdown over one more tick is the countdown so far plus that tick's redraw. */
  lemma CountdownStep(statusPrefix: string, ticks: seq<int>, i: nat)
    requires i < |ticks|
    ensures Countdown(statusPrefix, ticks[..i + 1]) == Countdown(statusPrefix, ticks[..i]) + [StatusRedraw(StatusText(statusPrefix, ticks[i]))]
  {
    assert ticks[..i + 1][..i] == ticks[..i];
  }

  /** A countdown tick with time left never shows `0с`. */
  lemma TickNotZero(statusPrefix: string, ms: int)
    requires 0 < ms
    ensures StatusRedraw(StatusText(statusPrefix, ms)) != StatusRedraw(statusPrefix + " 0с")
  {
    RemainingSecondsIsCeiling(ms);
    var secs := RemainingSeconds(ms);
    assert (secs - 1) * 1000 < ms;
    IntToStringZero(secs);
    var t := StatusText(statusPrefix, ms);
    var z := statusPrefix + " 0с";
    var d := IntToString(secs);
    assert d != "0";
    assert t == statusPrefix + " " + d + "с";
    if |t| == |z| {
      assert t[|statusPrefix| + 1..|t| - 1] == d;
      assert z[|statusPrefix| + 1..|z| - 1] == "0";
    }
    assert t != z;
    StatusRedrawShape(t);
    StatusRedrawShape(z);
  }

  /** After the opening three chunks, no redraw of a countdown over ticks with time left shows `0с`. */
  lemma CountdownHasNoZero(prompt: string, statusPrefix: string, ticks: seq<int>)
    requires forall j :: 0 <= j < |ticks| ==> 0 < ticks[j]
    ensures var shown := ["\n", statusPrefix + "\n", prompt] + Countdown(statusPrefix, ticks);
      forall j :: 3 <= j < |shown| ==> shown[j] != StatusRedraw(statusPrefix + " 0с")
  {
    var c := Countdown(statusPrefix, ticks);
    var shown := ["\n", statusPrefix + "\n", prompt] + c;
    forall j | 3 <= j < |shown|
      ensures shown[j] != StatusRedraw(statusPrefix + " 0с")
    {
      assert shown[j] == c[j - 3];
      TickNotZero(statusPrefix, ticks[j - 3]);
    }
  }

  /**
   * During a timed read the countdown never shows `0с`: every redraw before
   * the timeout shows at least one second left, and the `0с` status is
   * printed only as the timeout's own redraw, followed by the notice.
   */
  lemma {:induction false} CountdownNeverShowsZero(prompt: string, statusPrefix: string, e: ReadEvent)
    ensures var r := DeadlineRead(prompt, statusPrefix, e);
      forall j :: 3 <= j < |r.printed| && r.printed[j] == StatusRedraw(statusPrefix + " 0с") ==>
        j == |r.printed| - 3 && r.line.None? && r.printed[j + 2] == TimeIsUp + "\n"
  {
    var z := StatusRedraw(statusPrefix + " 0с");
    var k := Expiry(e.ticks);
    var shown := ["\n", statusPrefix + "\n", prompt] + Countdown(statusPrefix, e.ticks[..k]);
    CountdownHasNoZero(prompt, statusPrefix, e.ticks[..k]);
    var r := DeadlineRead(prompt, statusPrefix, e);
    if k < |e.ticks| || e.Timeout? {
      assert r.printed == shown + [z, "\n", TimeIsUp + "\n"];
      assert (TimeIsUp + "\n")[0] != z[0];
      ZeroOnlyBeforeNotice(shown, z, TimeIsUp + "\n");
    } else {
      assert r.printed == shown;
    }
  }

  /** A timed read that returns null for any reason but an interrupt has printed the timeout notice last. */
  lemma TimeoutEndsWithNotice(prompt: string, statusPrefix: string, e: ReadEvent)
    ensures var r := DeadlineRead(prompt, statusPrefix, e);
      r.line.None? && !e.Interrupted? ==> r.printed != [] && r.printed[|r.printed| - 1] == TimeIsUp + "\n"
  {
  }

  /** Appending a redraw, a line break and a notice to lines without that redraw puts it in one place only. */
  lemma ZeroOnlyBeforeNotice(shown: seq<string>, z: string, notice: string)
    requires |shown| >= 3 && forall j :: 3 <= j < |shown| ==> shown[j] != z
    requires |z| > 1 && z != notice
    ensures var p := shown + [z, "\n", notice];
      forall j :: 3 <= j < |p| && p[j] == z ==> j == |p| - 3
  {
  }

  // ---------------------------------------------------------------- line prompts

  /** What a prompt loop makes of its input: the value, how many lines it read, what it printed. */
  datatype Reply<T> = Reply(value: T, consumed: nat, printed: seq<string>)

  /** How `askYesNo` reads one line, after `trim()` and `toLowerCase()`. */
  datatype Answer = Yes | No | Blank | Unclear

  /** The words `askYesNo` takes for yes. */
  predicate IsYesWord(t: string) {
    t == "y" || t == "yes" || t == "д" || t == "да"
  }

  /** The words `askYesNo` takes for no. */
  predicate IsNoWord(t: string) {
    t == "n" || t == "no" || t == "н" || t == "нет"
  }

  function ReadAnswer(line: string): Answer {
    var t := ToLower(Trim(line));
    if t == [] then Blank
    else if IsYesWord(t) then Yes
    else if IsNoWord(t) then No
    else Unclear
  }

  /** The answer does not depend on the case of the line: `YES`, `Да` and `НЕТ` read as `yes`, `да` and `нет` do. */
  lemma AnswerIgnoresCase(line: string)
    ensures ReadAnswer(ToLower(line)) == ReadAnswer(line)
  {
    TrimToLower(line);
    ToLowerIdempotent(Trim(line));
  }

  /** Upper-case and padded answers are recognised. */
  lemma AnswerCaseExamples()
    ensures ReadAnswer("YES") == Yes && ReadAnswer(" Да ") == Yes
    ensures ReadAnswer("НЕТ") == No && ReadAnswer("N") == No
  {
    TrimKeeps("YES");
    TrimKeeps("НЕТ");
    TrimKeeps("N");
    assert Trim(" Да ") == "Да" by {
      assert TrimStartCount(" Да ") == 1 by {
        assert " Да "[1..] == "Да ";
      }
      assert TrimEndAt(" Да ", 1, 4) == 3;
    }
    assert ToLower("YES") == "yes";
    assert ToLower("Да") == "да";
    assert ToLower("НЕТ") == "нет";
    assert ToLower("N") == "n";
  }

  /** Each input line as `askYesNo` reads it. */
  function ReadAnswers(input: seq<string>): (r: seq<Answer>)
    ensures |r| == |input|
    ensures forall i :: 0 <= i < |input| ==> r[i] == ReadAnswer(input[i])
  {
    if input == [] then [] else [ReadAnswer(input[0])] + ReadAnswers(input[1..])
  }

  /** Reading the lines after the first is reading all of them and dropping the first answer. */
  lemma ReadAnswersTail(input: seq<string>)
    requires input != []
    ensures ReadAnswers(input) == [ReadAnswer(input[0])] + ReadAnswers(input[1..])
  {
    assert forall i :: 1 <= i < |input| ==> input[i] == input[1..][i - 1];
  }

  const AnswerYesNo: string := "Ответь y/n"

  /**
   * The `askYesNo` loop over the answers the remaining lines give: the
   * default on end of input or a blank line, true or false on a recognised
   * answer, and for anything else the hint and another prompt.
   */
  function YesNoLoop(answers: seq<Answer>, prompt: string, defaultYes: bool): (r: Reply<bool>)
    ensures r.consumed <= |answers|
    ensures r.consumed == 0 <==> answers == []
    decreases |answers|
  {
    if answers == [] then Reply(defaultYes, 0, [prompt])
    else
      match answers[0]
      case Blank => Reply(defaultYes, 1, [prompt])
      case Yes => Reply(true, 1, [prompt])
      case No => Reply(false, 1, [prompt])
      case Unclear =>
        var rest := YesNoLoop(answers[1..], prompt, defaultYes);
        Reply(rest.value, rest.consumed + 1, [prompt, AnswerYesNo + "\n"] + rest.printed)
  }

  /** `askYesNo` prints nothing but its prompt and, after each unclear answer, the hint; the prompt comes first. */
  lemma {:induction false} YesNoLoopPrints(answers: seq<Answer>, prompt: string, defaultYes: bool)
    ensures var r := YesNoLoop(answers, prompt, defaultYes);
      && r.printed != []
      && forall k :: 0 <= k < |r.printed| ==> r.printed[k] == (if k % 2 == 0 then prompt else AnswerYesNo + "\n")
    decreases |answers|
  {
    if answers != [] && answers[0] == Unclear {
      var rest := YesNoLoop(answers[1..], prompt, defaultYes);
      YesNoLoopPrints(answers[1..], prompt, defaultYes);
      var p := [prompt, AnswerYesNo + "\n"] + rest.printed;
      forall k | 2 <= k < |p|
        ensures p[k] == (if k % 2 == 0 then prompt else AnswerYesNo + "\n")
      {
        assert p[k] == rest.printed[k - 2];
        assert (k - 2) % 2 == k % 2;
      }
    }
  }

  /** `askYesNo` on the remaining input lines. */
  function YesNoRun(input: seq<string>, prompt: string, defaultYes: bool): Reply<bool> {
    YesNoLoop(ReadAnswers(input), prompt, defaultYes)
  }

  /**
   * What the `askYesNo` loop decides: it stops at the first answer that is
   * blank or recognised (every one before it is unclear) and answers
   * accordingly; when the answers run out first, the default.
   */
  lemma {:induction false} YesNoLoopDecides(answers: seq<Answer>, prompt: string, defaultYes: bool)
    ensures var r := YesNoLoop(answers, prompt, defaultYes);
      && (forall k :: 0 <= k < r.consumed - 1 ==> answers[k] == Unclear)
      && (r.consumed == 0 ==> r.value == defaultYes)
      && (r.consumed > 0 ==>
            match answers[r.consumed - 1]
            case Yes => r.value
            case No => !r.value
            case Blank => r.value == defaultYes
            case Unclear => r.consumed == |answers| && r.value == defaultYes)
    decreases |answers|
  {
    if answers != [] && answers[0] == Unclear {
      var rest := YesNoLoop(answers[1..], prompt, defaultYes);
      YesNoLoopDecides(answers[1..], prompt, defaultYes);
      assert forall k :: 1 <= k < rest.consumed + 1 ==> answers[k] == answers[1..][k - 1];
    }
  }

  /**
   * What `askYesNo` decides, line by line: every line it read before the
   * last was neither blank nor a recognised answer, and the last one decides
   * (or the default, at the end of input).
   */
  lemma YesNoRunDecides(input: seq<string>, prompt: string, defaultYes: bool)
    ensures var r := YesNoRun(input, prompt, defaultYes);
      && (forall k :: 0 <= k < r.consumed - 1 ==> ReadAnswer(input[k]) == Unclear)
      && (r.consumed == 0 ==> r.value == defaultYes)
      && (r.consumed > 0 ==>
            match ReadAnswer(input[r.consumed - 1])
            case Yes => r.value
            case No => !r.value
            case Blank => r.value == defaultYes
            case Unclear => r.consumed == |input| && r.value == defaultYes)
  {
    YesNoLoopDecides(ReadAnswers(input), prompt, defaultYes);
  }

  /** Output printed as two chunks and then some more, regrouped. */
  lemma TwoChunks(a: seq<string>, x: string, y: string, b: seq<string>)
    ensures a + ([x, y] + b) == a + [x] + [y] + b
  {
    assert [x, y] + b == [x] + [y] + b;
  }

  /** One step of the `askYesNo` loop, stated on the lower-cased, trimmed line. */
  lemma YesNoStep(input: seq<string>, prompt: string, defaultYes: bool)
    requires input != []
    ensures var t := ToLower(Trim(input[0]));
      var r := YesNoRun(input, prompt, defaultYes);
      var rest := YesNoRun(input[1..], prompt, defaultYes);
      && (t == [] ==> r.value == defaultYes && r.consumed == 1 && r.printed == [prompt])
      && (t != [] && IsYesWord(t) ==> r.value && r.consumed == 1 && r.printed == [prompt])
      && (t != [] && !IsYesWord(t) && IsNoWord(t) ==> !r.value && r.consumed == 1 && r.printed == [prompt])
      && (t != [] && !IsYesWord(t) && !IsNoWord(t) ==>
            r.value == rest.value && r.consumed == rest.consumed + 1
            && r.printed == [prompt, AnswerYesNo + "\n"] + rest.printed)
  {
    ReadAnswersTail(input);
  }

  /** The examples: a blank line takes the default, `да` is yes. */
  lemma YesNoExamples()
    ensures YesNoRun([""], "Q: ", false).value == false
    ensures YesNoRun(["да"], "Q: ", false).value == true
  {
    assert ReadAnswer("") == Blank;
    assert ToLower(Trim("да")) == "да";
  }

  /** How `askInt` reads one line. */
  datatype IntAnswer = BlankInt | NotAnInt | OutOfRange(n: int) | InRange(n: int)

  function ReadIntAnswer(line: string, minInclusive: int, maxInclusive: int): IntAnswer {
    var t := Trim(line);
    if t == [] then BlankInt
    else match ParseInt(t)
      case None => NotAnInt
      case Some(v) => if v < minInclusive || v > maxInclusive then OutOfRange(v) else InRange(v)
  }

  function AskIntPrompt(prompt: string, defaultValue: int): string {
    prompt + " [" + IntToString(defaultValue) + "]: "
  }

  const NeedInteger: string := "Нужно целое число."

  function RangeHint(minInclusive: int, maxInclusive: int): string {
    "Допустимый диапазон: " + IntToString(minInclusive) + ".." + IntToString(maxInclusive)
  }

  /** Each input line as `askInt` reads it. */
  function ReadIntAnswers(input: seq<string>, minInclusive: int, maxInclusive: int): (r: seq<IntAnswer>)
    ensures |r| == |input|
    ensures forall i :: 0 <= i < |input| ==> r[i] == ReadIntAnswer(input[i], minInclusive, maxInclusive)
  {
    if input == [] then [] else [ReadIntAnswer(input[0], minInclusive, maxInclusive)] + ReadIntAnswers(input[1..], minInclusive, maxInclusive)
  }

  /** Reading the lines after the first is reading all of them and dropping the first answer. */
  lemma ReadIntAnswersTail(input: seq<string>, minInclusive: int, maxInclusive: int)
    requires input != []
    ensures ReadIntAnswers(input, minInclusive, maxInclusive)
      == [ReadIntAnswer(input[0], minInclusive, maxInclusive)] + ReadIntAnswers(input[1..], minInclusive, maxInclusive)
  {
    assert forall i :: 1 <= i < |input| ==> input[i] == input[1..][i - 1];
  }

  /**
   * The `askInt` loop over the answers the remaining lines give, with the
   * prompt it prints (`ask`) and its range hint already formatted: the
   * default on end of input or a blank line, the number when it is in range,
   * and otherwise a hint and another prompt.
   */
  function AskIntLoop(answers: seq<IntAnswer>, ask: string, rangeHint: string, defaultValue: int): (r: Reply<int>)
    ensures r.consumed <= |answers|
    ensures r.consumed == 0 <==> answers == []
    ensures r.value == defaultValue || (r.consumed > 0 && answers[r.consumed - 1] == InRange(r.value))
    decreases |answers|
  {
    if answers == [] then Reply(defaultValue, 0, [ask])
    else
      match answers[0]
      case BlankInt => Reply(defaultValue, 1, [ask])
      case InRange(v) => Reply(v, 1, [ask])
      case NotAnInt =>
        var rest := AskIntLoop(answers[1..], ask, rangeHint, defaultValue);
        Reply(rest.value, rest.consumed + 1, [ask, NeedInteger + "\n"] + rest.printed)
      case OutOfRange(_) =>
        var rest := AskIntLoop(answers[1..], ask, rangeHint, defaultValue);
        Reply(rest.value, rest.consumed + 1, [ask, rangeHint + "\n"] + rest.printed)
  }

  /** `askInt` prints nothing but its prompt and, after each rejected answer, one of its two hints. */
  lemma {:induction false} AskIntLoopPrints(answers: seq<IntAnswer>, ask: string, rangeHint: string, defaultValue: int)
    ensures var r := AskIntLoop(answers, ask, rangeHint, defaultValue);
      && r.printed != [] && r.printed[0] == ask
      && forall k :: 0 <= k < |r.printed| ==>
           r.printed[k] == ask || r.printed[k] == NeedInteger + "\n" || r.printed[k] == rangeHint + "\n"
    decreases |answers|
  {
    if answers != [] && (answers[0].NotAnInt? || answers[0].OutOfRange?) {
      var rest := AskIntLoop(answers[1..], ask, rangeHint, defaultValue);
      AskIntLoopPrints(answers[1..], ask, rangeHint, defaultValue);
      var hint := if answers[0].NotAnInt? then NeedInteger + "\n" else rangeHint + "\n";
      var p := [ask, hint] + rest.printed;
      assert forall k :: 2 <= k < |p| ==> p[k] == rest.printed[k - 2];
    }
  }

  /** `askInt` on the remaining input lines: what it returns is the default or a value in range. */
  function AskIntRun(input: seq<string>, prompt: string, defaultValue: int, minInclusive: int, maxInclusive: int): (r: Reply<int>)
    ensures r.value == defaultValue || minInclusive <= r.value <= maxInclusive
  {
    AskIntLoop(ReadIntAnswers(input, minInclusive, maxInclusive), AskIntPrompt(prompt, defaultValue), RangeHint(minInclusive, maxInclusive), defaultValue)
  }

  /** What one answer means to `askInt`: the value it settles on, or none when it asks again. */
  function IntOutcome(a: IntAnswer, defaultValue: int): Option<int> {
    match a
    case BlankInt => Some(defaultValue)
    case InRange(v) => Some(v)
    case _ => None
  }

  /**
   * What the `askInt` loop decides: it stops at the first answer that is
   * blank or in range (every one before it failed to parse or was out of
   * range) and returns that number or the default; when the answers run
   * out first, the default.
   */
  lemma {:induction false} AskIntLoopDecides(answers: seq<IntAnswer>, ask: string, rangeHint: string, defaultValue: int)
    ensures var r := AskIntLoop(answers, ask, rangeHint, defaultValue);
      && (forall k :: 0 <= k < r.consumed - 1 ==> IntOutcome(answers[k], defaultValue) == None)
      && (r.consumed == 0 ==> r.value == defaultValue)
      && (r.consumed > 0 ==>
            var o := IntOutcome(answers[r.consumed - 1], defaultValue);
            (o.Some? ==> r.value == o.value) && (o.None? ==> r.consumed == |answers| && r.value == defaultValue))
    decreases |answers|
  {
    if answers != [] && IntOutcome(answers[0], defaultValue) == None {
      var rest := AskIntLoop(answers[1..], ask, rangeHint, defaultValue);
      AskIntLoopDecides(answers[1..], ask, rangeHint, defaultValue);
      assert forall k :: 1 <= k < rest.consumed + 1 ==> answers[k] == answers[1..][k - 1];
    }
  }

  /**
   * What `askInt` decides, line by line: every line it read before the last
   * failed to parse or was out of range, and the last one decides (or the
   * default, at the end of input).
   */
  lemma AskIntRunDecides(input: seq<string>, prompt: string, defaultValue: int, minInclusive: int, maxInclusive: int)
    ensures var r := AskIntRun(input, prompt, defaultValue, minInclusive, maxInclusive);
      && (forall k :: 0 <= k < r.consumed - 1 ==> IntOutcome(ReadIntAnswer(input[k], minInclusive, maxInclusive), defaultValue) == None)
      && (r.consumed == 0 ==> r.value == defaultValue)
      && (r.consumed > 0 ==>
            var o := IntOutcome(ReadIntAnswer(input[r.consumed - 1], minInclusive, maxInclusive), defaultValue);
            (o.Some? ==> r.value == o.value) && (o.None? ==> r.consumed == |input| && r.value == defaultValue))
  {
    AskIntLoopDecides(ReadIntAnswers(input, minInclusive, maxInclusive), AskIntPrompt(prompt, defaultValue), RangeHint(minInclusive, maxInclusive), defaultValue);
  }

  /** One step of the `askInt` loop, stated on the trimmed line and its parse. */
  lemma AskIntStep(input: seq<string>, prompt: string, defaultValue: int, minInclusive: int, maxInclusive: int)
    requires input != []
    ensures var t := Trim(input[0]);
      var ask := AskIntPrompt(prompt, defaultValue);
      var r := AskIntRun(input, prompt, defaultValue, minInclusive, maxInclusive);
      var rest := AskIntRun(input[1..], prompt, defaultValue, minInclusive, maxInclusive);
      && (t == [] ==> r.value == defaultValue && r.consumed == 1 && r.printed == [ask])
      && (t != [] && ParseInt(t).None? ==>
            r.value == rest.value && r.consumed == rest.consumed + 1
            && r.printed == [ask, NeedInteger + "\n"] + rest.printed)
      && (t != [] && ParseInt(t).Some? && (ParseInt(t).value < minInclusive || ParseInt(t).value > maxInclusive) ==>
            r.value == rest.value && r.consumed == rest.consumed + 1
            && r.printed == [ask, RangeHint(minInclusive, maxInclusive) + "\n"] + rest.printed)
      && (t != [] && ParseInt(t).Some? && minInclusive <= ParseInt(t).value <= maxInclusive ==>
            r.value == ParseInt(t).value && r.consumed == 1 && r.printed == [ask])
  {
    ReadIntAnswersTail(input, minInclusive, maxInclusive);
  }

  /**
   * A line of plain digits is read as its value: taken at once when in
   * range, and otherwise answered with the range hint before asking again.
   */
  lemma AskIntReadsNumber(input: seq<string>, prompt: string, defaultValue: int, minInclusive: int, maxInclusive: int)
    requires input != [] && MatchesDigits(input[0]) && DigitsValue(input[0]) <= MaxInt
    ensures var v := DigitsValue(input[0]);
      var r := AskIntRun(input, prompt, defaultValue, minInclusive, maxInclusive);
      var rest := AskIntRun(input[1..], prompt, defaultValue, minInclusive, maxInclusive);
      && (minInclusive <= v <= maxInclusive ==> r.value == v && r.consumed == 1)
      && (v < minInclusive || v > maxInclusive ==>
            r.value == rest.value && r.consumed == rest.consumed + 1
            && r.printed == [AskIntPrompt(prompt, defaultValue), RangeHint(minInclusive, maxInclusive) + "\n"] + rest.printed)
  {
    TrimKeeps(input[0]);
    AskIntStep(input, prompt, defaultValue, minInclusive, maxInclusive);
  }

  /** The lines of the `askInt` example, as `askInt` classifies them. */
  lemma AskIntExampleWords()
    ensures MatchesDigits("5") && DigitsValue("5") == 5
    ensures MatchesDigits("11") && DigitsValue("11") == 11
    ensures Trim("abc") != [] && ParseInt(Trim("abc")).None?
  {
    assert "11"[..1] == "1";
    TrimKeeps("abc");
    assert !IsDigit('a');
  }

  /**
   * The test's example, for any prompt, default and range that admits 5 but
   * not 11: `abc` is not a number, `11` is out of range, `5` is taken, and
   * both hints were printed.
   */
  lemma AskIntExampleLines(input: seq<string>, prompt: string, defaultValue: int, minInclusive: int, maxInclusive: int)
    requires |input| >= 3 && input[0] == "abc" && input[1] == "11" && input[2] == "5"
    requires minInclusive <= 5 <= maxInclusive < 11
    ensures var r := AskIntRun(input, prompt, defaultValue, minInclusive, maxInclusive);
      r.value == 5 && r.consumed == 3 && NeedInteger + "\n" in r.printed && RangeHint(minInclusive, maxInclusive) + "\n" in r.printed
  {
    var ask := AskIntPrompt(prompt, defaultValue);
    var hint := RangeHint(minInclusive, maxInclusive) + "\n";
    var r2 := AskIntRun(input[2..], prompt, defaultValue, minInclusive, maxInclusive);
    AskIntExampleWords();
    AskIntReadsNumber(input[2..], prompt, defaultValue, minInclusive, maxInclusive);
    assert input[1..][1..] == input[2..];
    AskIntReadsNumber(input[1..], prompt, defaultValue, minInclusive, maxInclusive);
    var r1 := AskIntRun(input[1..], prompt, defaultValue, minInclusive, maxInclusive);
    assert r1.value == 5 && r1.consumed == 2 && r1.printed[1] == hint;
    AskIntStep(input, prompt, defaultValue, minInclusive, maxInclusive);
    var r := AskIntRun(input, prompt, defaultValue, minInclusive, maxInclusive);
    assert r.printed == [ask, NeedInteger + "\n"] + r1.printed;
    assert r.printed[1] == NeedInteger + "\n" && r.printed[3] == hint;
  }

  /** The test's example: `abc`, `11`, `5` for a number in 1..10 with default 4. */
  lemma AskIntExample()
    ensures var r := AskIntRun(["abc", "11", "5"], "Число", 4, 1, 10);
      r.value == 5 && r.consumed == 3 && NeedInteger + "\n" in r.printed && RangeHint(1, 10) + "\n" in r.printed
  {
    AskIntExampleLines(["abc", "11", "5"], "Число", 4, 1, 10);
  }

  // ---------------------------------------------------------------- game parameters

  /** What `chooseGameParameters` settles on: the defaults kept, or three values read. */
  datatype Choice = Keep | Custom(secretLength: int, maxAttempts: int, timeToGuess: int)

  const ChangePrompt: string := "Изменить настройки? (y/N): "
  const LengthPrompt: string := "Длина числа"
  const AttemptsPrompt: string := "Максимум попыток"
  const TimePrompt: string := "Время на попытку (сек)"

  /** The summary of the current settings printed before the question. */
  function SettingsSummary(secretLength: int, maxAttempts: int, timeToGuess: int): seq<string> {
    [ "Настройки игры:" + "\n",
      "- Длина числа: " + IntToString(secretLength) + "\n",
      "- Попыток: " + IntToString(maxAttempts) + "\n",
      "- Время на попытку: " + IntToString(timeToGuess) + "с" + "\n" ]
  }

  /**
   * The position `n` lines after `start`. A named function rather than `+`
   * so that line positions stay apart from the counting in the proofs.
   */
  function Skip(start: nat, n: nat): nat {
    start + n
  }

  /**
   * `chooseGameParameters` reading from position `start` of the input lines:
   * the question (default no); on yes, the three numbers. The summary of the
   * defaults printed before the question is `SettingsSummary`.
   */
  function ChooseRun(lines: seq<string>, start: nat, secretLength: int, maxAttempts: int, timeToGuess: int): (r: Reply<Choice>)
    requires start <= |lines|
    ensures start + r.consumed <= |lines|
    ensures r.value.Custom? ==>
      && (r.value.secretLength == secretLength || 1 <= r.value.secretLength <= 10)
      && (r.value.maxAttempts == maxAttempts || 1 <= r.value.maxAttempts <= 999)
      && (r.value.timeToGuess == timeToGuess || 1 <= r.value.timeToGuess <= 3600)
    ensures r.value.Keep? <==> !YesNoRun(lines[start..], ChangePrompt, false).value
  {
    var ask := YesNoRun(lines[start..], ChangePrompt, false);
    if !ask.value then Reply(Keep, ask.consumed, ask.printed)
    else
      var n := NumbersRun(lines, Skip(start, ask.consumed), secretLength, maxAttempts, timeToGuess);
      Reply(n.value, ask.consumed + n.consumed, ask.printed + n.printed)
  }

  /**
   * The three `askInt` prompts of `chooseGameParameters` from position `p1`,
   * each reading where the previous one stopped.
   */
  function NumbersRun(lines: seq<string>, p1: nat, secretLength: int, maxAttempts: int, timeToGuess: int): (r: Reply<Choice>)
    requires p1 <= |lines|
    ensures p1 + r.consumed <= |lines| && r.value.Custom?
  {
    var a := AskIntRun(lines[p1..], LengthPrompt, secretLength, 1, 10);
    var p2 := Skip(p1, a.consumed);
    var b := AskIntRun(lines[p2..], AttemptsPrompt, maxAttempts, 1, 999);
    var p3 := Skip(p2, b.consumed);
    var c := AskIntRun(lines[p3..], TimePrompt, timeToGuess, 1, 3600);
    Reply(Custom(a.value, b.value, c.value), Skip(p3, c.consumed) - p1, a.printed + b.printed + c.printed)
  }

  /** What two prompts print, appended one after another. */
  lemma AppendTwo(out: seq<string>, a: seq<string>, b: seq<string>)
    ensures out + a + b == out + (a + b)
  {
  }

  /** What three prompts print, appended one after another. */
  lemma AppendThree(out: seq<string>, a: seq<string>, b: seq<string>, c: seq<string>)
    ensures out + a + b + c == out + (a + b + c)
  {
  }


  /** The test's first example: a blank answer keeps the defaults. */
  lemma ChooseKeepExample()
    ensures ChooseRun([""], 0, 4, 10, 30).value == Keep
  {
    assert ReadAnswer("") == Blank;
  }

  /** After a yes, the three answers read in turn are the ones chosen. */
  lemma ChooseRunReads(input: seq<string>, secretLength: int, maxAttempts: int, timeToGuess: int, a: int, b: int, c: int)
    requires YesNoRun(input, ChangePrompt, false).value && YesNoRun(input, ChangePrompt, false).consumed == 1
    requires 1 <= |input|
    requires AskIntRun(input[1..], LengthPrompt, secretLength, 1, 10).value == a
    requires AskIntRun(input[1..], LengthPrompt, secretLength, 1, 10).consumed == 1
    requires 2 <= |input| && AskIntRun(input[2..], AttemptsPrompt, maxAttempts, 1, 999).value == b
    requires AskIntRun(input[2..], AttemptsPrompt, maxAttempts, 1, 999).consumed == 1
    requires 3 <= |input| && AskIntRun(input[3..], TimePrompt, timeToGuess, 1, 3600).value == c
    ensures ChooseRun(input, 0, secretLength, maxAttempts, timeToGuess).value == Custom(a, b, c)
  {
    assert input[0..] == input;
  }

  /** A line of plain digits whose value is in range is taken at once. */
  lemma AskIntTakesNumber(input: seq<string>, prompt: string, defaultValue: int, minInclusive: int, maxInclusive: int)
    requires input != [] && MatchesDigits(input[0])
    requires minInclusive <= DigitsValue(input[0]) <= maxInclusive <= MaxInt
    ensures AskIntRun(input, prompt, defaultValue, minInclusive, maxInclusive).value == DigitsValue(input[0])
    ensures AskIntRun(input, prompt, defaultValue, minInclusive, maxInclusive).consumed == 1
  {
    TrimKeeps(input[0]);
    AskIntStep(input, prompt, defaultValue, minInclusive, maxInclusive);
  }

  /** The numbers of the settings example are plain digits with the expected values. */
  lemma CustomWords()
    ensures MatchesDigits("6") && DigitsValue("6") == 6
    ensures MatchesDigits("20") && DigitsValue("20") == 20
    ensures MatchesDigits("45") && DigitsValue("45") == 45
  {
    assert "20"[..1] == "2" && "45"[..1] == "4";
  }

  /** Answers `6`, `20`, `45` to the three number prompts are taken one line each. */
  lemma CustomNumbers(input: seq<string>, secretLength: int, maxAttempts: int, timeToGuess: int)
    requires |input| >= 4 && input[1] == "6" && input[2] == "20" && input[3] == "45"
    ensures AskIntRun(input[1..], LengthPrompt, secretLength, 1, 10).value == 6
    ensures AskIntRun(input[1..], LengthPrompt, secretLength, 1, 10).consumed == 1
    ensures AskIntRun(input[2..], AttemptsPrompt, maxAttempts, 1, 999).value == 20
    ensures AskIntRun(input[2..], AttemptsPrompt, maxAttempts, 1, 999).consumed == 1
    ensures AskIntRun(input[3..], TimePrompt, timeToGuess, 1, 3600).value == 45
  {
    CustomWords();
    AskIntTakesNumber(input[1..], LengthPrompt, secretLength, 1, 10);
    AskIntTakesNumber(input[2..], AttemptsPrompt, maxAttempts, 1, 999);
    AskIntTakesNumber(input[3..], TimePrompt, timeToGuess, 1, 3600);
  }

  /** Answers `y`, `6`, `20`, `45`, whatever the defaults and whatever follows, set all three values. */
  lemma ChooseCustomLines(input: seq<string>, secretLength: int, maxAttempts: int, timeToGuess: int)
    requires |input| >= 4 && input[0] == "y" && input[1] == "6" && input[2] == "20" && input[3] == "45"
    ensures ChooseRun(input, 0, secretLength, maxAttempts, timeToGuess).value == Custom(6, 20, 45)
  {
    assert YesNoRun(input, ChangePrompt, false).value && YesNoRun(input, ChangePrompt, false).consumed == 1 by {
      TrimKeeps("y");
      YesNoStep(input, ChangePrompt, false);
    }
    CustomNumbers(input, secretLength, maxAttempts, timeToGuess);
    ChooseRunReads(input, secretLength, maxAttempts, timeToGuess, 6, 20, 45);
  }

  /** The test's second example: `y`, `6`, `20`, `45` sets all three values. */
  lemma ChooseCustomExample()
    ensures ChooseRun(["y", "6", "20", "45"], 0, 4, 10, 30).value == Custom(6, 20, 45)
  {
    ChooseCustomLines(["y", "6", "20", "45"], 4, 10, 30);
  }

  // ---------------------------------------------------------------- the terminal object

  const SeparatorLine: string := "-----------------"
  const ExitPrompt: string := "Ты хочешь уйти с позором? (y/N): "

  /**
   * `GameTui`: the input it has not read yet (lines for the prompts, events
   * for the timed reads, each consumed by advancing a position) and the
   * output it has printed so far.
   */
  class GameTui {
    const lines: seq<string>
    var pos: nat
    const events: seq<ReadEvent>
    var epos: nat
    var out: seq<string>

    ghost predicate Valid()
      reads this
    {
      pos <= |lines| && epos <= |events|
    }

    constructor(lines: seq<string>, events: seq<ReadEvent>)
      ensures Valid()
      ensures this.lines == lines && pos == 0 && this.events == events && epos == 0 && out == []
    {
      this.lines := lines;
      pos := 0;
      this.events := events;
      epos := 0;
      out := [];
    }

    /** `println(text)`. */
    method Println(text: string)
      modifies this`out
      ensures out == old(out) + [text + "\n"]
    {
      out := out + [text + "\n"];
    }

    /** `printSeparator()`. */
    method PrintSeparator()
      modifies this`out
      ensures out == old(out) + [SeparatorLine + "\n"]
    {
      Println(SeparatorLine);
    }

    /** `readLineUnbounded()`: the next line, or null at the end of input. */
    method ReadLineUnbounded() returns (line: Option<string>)
      requires Valid()
      modifies this`pos
      ensures Valid()
      ensures old(pos) < |lines| ==> line == Some(lines[old(pos)]) && pos == old(pos) + 1
      ensures old(pos) == |lines| ==> line == None && pos == old(pos)
    {
      if pos < |lines| {
        line := Some(lines[pos]);
        pos := pos + 1;
      } else {
        line := None;
      }
    }

    /** `redrawStatusLine(statusText)`: the redraw, handed over as one chunk. */
    method RedrawStatusLine(statusText: string)
      modifies this`out
      ensures out == old(out) + [StatusRedraw(statusText)]
    {
      out := out + [StatusRedraw(statusText)];
    }

    /**
     * `readLineWithDeadline`: prints a blank line, the status and the prompt,
     * then redraws the countdown at each tick while time is left; at the
     * first tick with none left it shows `0с` and the timeout notice and
     * gives null. Otherwise the event decides: a line is returned, an
     * interrupt gives null.
     */
    method ReadLineWithDeadline(prompt: string, statusPrefix: string) returns (line: Option<string>)
      requires Valid()
      modifies this`epos, this`out
      ensures Valid()
      ensures var r := DeadlineRead(prompt, statusPrefix, NextEvent(events, old(epos)));
        line == r.line && out == old(out) + r.printed
      ensures epos == AfterRead(events, old(epos))
    {
      var e := NextEvent(events, epos);
      if epos < |events| {
        epos := epos + 1;
      }
      ghost var out0 := out;
      out := out + Opening(prompt, statusPrefix);
      var k := CountDown(e, statusPrefix);
      if k < |e.ticks| {
        PrintTimeout(statusPrefix);
        line := None;
        AppendThree(out0, Opening(prompt, statusPrefix), Countdown(statusPrefix, e.ticks[..k]), TimeoutTail(statusPrefix));
      } else {
        line := EndOfWait(e, statusPrefix);
        AppendThree(out0, Opening(prompt, statusPrefix), Countdown(statusPrefix, e.ticks[..k]), WaitTail(e, statusPrefix));
      }
    }

    /**
     * The polling loop of `readLineWithDeadline`: a redraw of the remaining
     * seconds for every tick while time is left. Returns the tick at which
     * none was left, or the number of ticks if there was always some.
     */
    method CountDown(e: ReadEvent, statusPrefix: string) returns (k: nat)
      modifies this`out
      ensures k == Expiry(e.ticks)
      ensures out == old(out) + Countdown(statusPrefix, e.ticks[..k])
    {
      k := 0;
      while k < |e.ticks| && e.ticks[k] > 0
        invariant k <= |e.ticks|
        invariant forall j :: 0 <= j < k ==> e.ticks[j] > 0
        invariant out == old(out) + Countdown(statusPrefix, e.ticks[..k])
      {
        RedrawStatusLine(StatusText(statusPrefix, e.ticks[k]));
        CountdownStep(statusPrefix, e.ticks, k);
        AppendTwo(old(out), Countdown(statusPrefix, e.ticks[..k]), [StatusRedraw(StatusText(statusPrefix, e.ticks[k]))]);
        k := k + 1;
      }
      ExpiryIsFirst(e.ticks, k);
    }

    /**
     * The end of `readLineWithDeadline` once every countdown tick had time
     * left: the deadline is reached (timeout), the wait is interrupted
     * (null), or the line that arrived is returned.
     */
    method EndOfWait(e: ReadEvent, statusPrefix: string) returns (line: Option<string>)
      modifies this`out
      ensures line == if e.Line? || e.Late? then Some(e.text) else None
      ensures out == old(out) + WaitTail(e, statusPrefix)
    {
      match e {
        case Timeout(_) =>
          PrintTimeout(statusPrefix);
          line := None;
        case Interrupted(_) =>
          line := None;
        case Line(_, text) =>
          line := Some(text);
        case Late(_, text) =>
          line := Some(text);
      }
    }

    /** The timeout branch of `readLineWithDeadline`: the `0с` redraw, `println()`, `println("Время вышло.")`. */
    method PrintTimeout(statusPrefix: string)
      modifies this`out
      ensures out == old(out) + TimeoutTail(statusPrefix)
    {
      RedrawStatusLine(statusPrefix + " 0с");
      Println("");
      Println(TimeIsUp);
      assert "" + "\n" == "\n";
    }

    /** `askInt`: prompts until a blank line, end of input or an in-range integer. */
    method AskInt(prompt: string, defaultValue: int, minInclusive: int, maxInclusive: int) returns (value: int)
      requires Valid()
      modifies this`pos, this`out
      ensures Valid()
      ensures var r := AskIntRun(old(lines[pos..]), prompt, defaultValue, minInclusive, maxInclusive);
        value == r.value && pos == Skip(old(pos), r.consumed) && out == old(out) + r.printed
      ensures value == defaultValue || minInclusive <= value <= maxInclusive
    {
      ghost var total := AskIntRun(lines[pos..], prompt, defaultValue, minInclusive, maxInclusive);
      while true
        invariant Valid() && old(pos) <= pos
        invariant var r := AskIntRun(lines[pos..], prompt, defaultValue, minInclusive, maxInclusive);
          total.value == r.value && old(pos) + total.consumed == pos + r.consumed && old(out) + total.printed == out + r.printed
        decreases |lines| - pos
      {
        ghost var input := lines[pos..];
        ghost var outBefore := out;
        var ask := AskIntPrompt(prompt, defaultValue);
        out := out + [ask];
        var line := ReadLineUnbounded();
        if line.None? {
          return defaultValue;
        }
        assert input[0] == line.value && input[1..] == lines[pos..];
        var trimmed := Trim(line.value);
        if trimmed == [] {
          AskIntStep(input, prompt, defaultValue, minInclusive, maxInclusive);
          return defaultValue;
        }
        var parsed := ParseInt(trimmed);
        if parsed.None? {
          Println(NeedInteger);
          ghost var rest := AskIntRun(lines[pos..], prompt, defaultValue, minInclusive, maxInclusive);
          AskIntStep(input, prompt, defaultValue, minInclusive, maxInclusive);
          TwoChunks(outBefore, ask, NeedInteger + "\n", rest.printed);
          assert total.value == rest.value;
          assert old(pos) + total.consumed == pos + rest.consumed;
          assert old(out) + total.printed == out + rest.printed;
          continue;
        }
        value := parsed.value;
        if value < minInclusive || value > maxInclusive {
          Println(RangeHint(minInclusive, maxInclusive));
          ghost var rest := AskIntRun(lines[pos..], prompt, defaultValue, minInclusive, maxInclusive);
          ghost var hint := RangeHint(minInclusive, maxInclusive) + "\n";
          AskIntStep(input, prompt, defaultValue, minInclusive, maxInclusive);
          TwoChunks(outBefore, ask, hint, rest.printed);
          assert total.value == rest.value;
          assert old(pos) + total.consumed == pos + rest.consumed;
          assert old(out) + total.printed == out + rest.printed;
          continue;
        }
        AskIntStep(input, prompt, defaultValue, minInclusive, maxInclusive);
        return value;
      }
    }

    /** `askYesNo`: prompts until a blank line, end of input or a recognised answer. */
    method AskYesNo(prompt: string, defaultYes: bool) returns (yes: bool)
      requires Valid()
      modifies this`pos, this`out
      ensures Valid()
      ensures var r := YesNoRun(old(lines[pos..]), prompt, defaultYes);
        yes == r.value && pos == Skip(old(pos), r.consumed) && out == old(out) + r.printed
    {
      ghost var total := YesNoRun(lines[pos..], prompt, defaultYes);
      while true
        invariant Valid() && old(pos) <= pos
        invariant var r := YesNoRun(lines[pos..], prompt, defaultYes);
          total.value == r.value && old(pos) + total.consumed == pos + r.consumed && old(out) + total.printed == out + r.printed
        decreases |lines| - pos
      {
        ghost var input := lines[pos..];
        ghost var outBefore := out;
        out := out + [prompt];
        var line := ReadLineUnbounded();
        if line.None? {
          return defaultYes;
        }
        assert input[0] == line.value && input[1..] == lines[pos..];
        var trimmed := ToLower(Trim(line.value));
        if trimmed == [] {
          YesNoStep(input, prompt, defaultYes);
          return defaultYes;
        }
        if IsYesWord(trimmed) {
          YesNoStep(input, prompt, defaultYes);
          return true;
        }
        if IsNoWord(trimmed) {
          YesNoStep(input, prompt, defaultYes);
          return false;
        }
        Println(AnswerYesNo);
        ghost var rest := YesNoRun(lines[pos..], prompt, defaultYes);
        YesNoStep(input, prompt, defaultYes);
        TwoChunks(outBefore, prompt, AnswerYesNo + "\n", rest.printed);
        assert total.value == rest.value;
        assert old(pos) + total.consumed == pos + rest.consumed;
        assert old(out) + total.printed == out + rest.printed;
      }
    }

    /** `confirmExit`: the yes/no question with default no. */
    method ConfirmExit() returns (yes: bool)
      requires Valid()
      modifies this`pos, this`out
      ensures Valid()
      ensures var r := YesNoRun(old(lines[pos..]), ExitPrompt, false);
        yes == r.value && pos == Skip(old(pos), r.consumed) && out == old(out) + r.printed
    {
      yes := AskYesNo(ExitPrompt, false);
    }

    /**
     * `chooseGameParameters`: shows the defaults and asks whether to change
     * them. On no, the very same `defaults` object comes back; on yes, a new
     * object whose fields are read one by one with `askInt`.
     */
    method ChooseGameParameters(defaults: GameParameters) returns (p: GameParameters)
      requires Valid()
      modifies this`pos, this`out
      ensures Valid()
      ensures var r := ChooseRun(lines, old(pos), defaults.secretLength, defaults.maxAttempts, defaults.timeToGuess);
        && pos == old(pos) + r.consumed
        && out == old(out) + SettingsSummary(defaults.secretLength, defaults.maxAttempts, defaults.timeToGuess) + r.printed
        && (r.value.Keep? ==> p == defaults)
        && (r.value.Custom? ==>
              fresh(p) && p.secretLength == r.value.secretLength
              && p.maxAttempts == r.value.maxAttempts && p.timeToGuess == r.value.timeToGuess)
    {
      ghost var pos0, s, m, t := pos, defaults.secretLength, defaults.maxAttempts, defaults.timeToGuess;
      var summary := SettingsSummary(defaults.secretLength, defaults.maxAttempts, defaults.timeToGuess);
      out := out + summary;
      ghost var out1 := out;
      var change := AskYesNo(ChangePrompt, false);
      if !change {
        return defaults;
      }
      ghost var ask := YesNoRun(lines[pos0..], ChangePrompt, false);
      ghost var p1, out2 := pos, out;
      assert p1 == Skip(pos0, ask.consumed) && out2 == out1 + ask.printed;
      p := AskCustomParameters(defaults.secretLength, defaults.maxAttempts, defaults.timeToGuess);
      AppendTwo(out1, ask.printed, NumbersRun(lines, p1, s, m, t).printed);
      assert defaults.secretLength == s && defaults.maxAttempts == m && defaults.timeToGuess == t;
    }

    /**
     * The second half of `chooseGameParameters`: the length, the attempts
     * and the time, each read with `askInt` where the previous one stopped.
     */
    method AskCustomParameters(secretLength: int, maxAttempts: int, timeToGuess: int) returns (p: GameParameters)
      requires Valid()
      modifies this`pos, this`out
      ensures Valid()
      ensures var n := NumbersRun(lines, old(pos), secretLength, maxAttempts, timeToGuess);
        && fresh(p)
        && p.secretLength == n.value.secretLength
        && p.maxAttempts == n.value.maxAttempts
        && p.timeToGuess == n.value.timeToGuess
        && pos == old(pos) + n.consumed && out == old(out) + n.printed
    {
      ghost var p1, out0 := pos, out;
      p := new GameParameters();
      p.secretLength := AskInt(LengthPrompt, secretLength, 1, 10);
      ghost var a := AskIntRun(lines[p1..], LengthPrompt, secretLength, 1, 10);
      ghost var p2 := Skip(p1, a.consumed);
      assert pos == p2 && out == out0 + a.printed;
      p.maxAttempts := AskInt(AttemptsPrompt, maxAttempts, 1, 999);
      ghost var b := AskIntRun(lines[p2..], AttemptsPrompt, maxAttempts, 1, 999);
      ghost var p3 := Skip(p2, b.consumed);
      assert pos == p3 && out == out0 + a.printed + b.printed;
      p.timeToGuess := AskInt(TimePrompt, timeToGuess, 1, 3600);
      ghost var c := AskIntRun(lines[p3..], TimePrompt, timeToGuess, 1, 3600);
      assert pos == Skip(p3, c.consumed) && out == out0 + a.printed + b.printed + c.printed;
      AppendThree(out0, a.printed, b.printed, c.printed);
    }
  }
}
