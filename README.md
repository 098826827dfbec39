# Bulls and cows, in Dafny

A model of the core of a terminal "bulls and cows" game (package `me.ivy`).
The computer keeps a list of the ten digit characters and reshuffles it for
every game; the first `secretLength` entries are the secret. The player
guesses it within `maxAttempts` attempts, each under a deadline. Every
scored guess is answered with the number of bulls (right digit, right place)
and cows (a digit of the secret, elsewhere).

Modules, one per concern of the program:

- `Common` (common.dfy): `Option` stands for a `null` string; `Result`
  stands for a call that may throw.
- `JavaText` (java_text.dfy): the Java string library the game relies on,
  written out. It covers `%d` formatting, `Integer.parseInt`, `trim`,
  `toLowerCase`, the regular expression `\d+` and
  `chars().distinct().count()`.
- `Parameters` (parameters.dfy): `GameParameters`, a class whose public
  fields are assigned one by one.
- `BullsCows` (bulls_cows.dfy): the class `BullsCowsGame`. The digit list
  and the secret length are fields. The shuffle, the copy of the secret and
  the scoring loop are methods. `Score` is the function they are proved
  against.
- `Tui` (tui.dfy): the class `GameTui`.
  - It holds two scripts of input: lines for the prompts read without a
    deadline, and events for the reads under a deadline. It also holds the
    output printed so far, as a sequence of the chunks handed to
    `print`/`println`.
  - Each prompt loop is a method proved against a function over the
    remaining lines: `AskIntRun`, `YesNoRun`, `ChooseRun`.
  - The read under a deadline is a method proved against `DeadlineRead`.
- `Host` (host.dfy): the class `GameHost`.
  - `HostGame` generates the secret and runs the attempts.
  - It is proved against `GameRun` (the attempt loop), which builds on
    `AttemptRun` (the inner read-and-check loop of one attempt).
  - The session's properties are lemmas about these two functions.

A timed read sees one `ReadEvent`, which stands for the clock:
- `ticks` are the milliseconds left at each countdown redraw;
- then the read ends in one of four ways: `Timeout` (no line in time),
  `Interrupted` (the sleep was interrupted, or the stream ended while
  ready), `Line` (a line in time) or `Late` (a line that the caller's clock
  check, made after the read, finds past the deadline).

The methods `AskCustomParameters`, `CountDown`, `EndOfWait`,
`PrintTimeout`, `ReadGuess` and `PlayAttempts` are pieces of the Java
methods they are cited against. Each holds one of their loops or branches.

## Model

| member | source | states |
|---|---|---|
| JavaText.IntToString | bk/src/main/java/me/ivy/GameHost.java:32 | `%d` writes at least one character, starts with `-` exactly for negative numbers and never with `+` |
| JavaText.ParseInt | bk/src/main/java/me/ivy/GameTui.java:77 | a parsed value fits in a 32-bit `int`, and the text was an optional sign followed by one or more digits and nothing else |
| JavaText.ParseIntAccepts | bk/src/main/java/me/ivy/GameTui.java:77 | the converse: an optional `+` or `-` followed by digits (leading zeros allowed) parses to the digits' value with the sign applied, exactly when that value fits in an `int` |
| JavaText.ParseIntExamples | bk/src/main/java/me/ivy/GameTui.java:77 | `+5` gives 5, `007` gives 7, `-0` gives 0; `2147483648`, `1 2`, `-` and the empty text are refused |
| JavaText.IntToStringZero | bk/src/main/java/me/ivy/GameTui.java:218 | `%d` writes `0` for zero and for no other number |
| JavaText.ParseIntOfIntToString | bk/src/main/java/me/ivy/GameTui.java:77 | parsing what `%d` printed gives the number back, for every `int` |
| JavaText.TrimShape | bk/src/main/java/me/ivy/GameTui.java:69 | `trim` returns a contiguous piece of `s`, with only characters up to U+0020 cut off before and after it; the piece neither starts nor ends with such a character, and is empty exactly when every character of `s` is one |
| JavaText.TrimKeeps | bk/src/main/java/me/ivy/GameTui.java:69 | `trim` leaves a string alone when neither end needs removing |
| JavaText.TrimIdempotent | bk/src/main/java/me/ivy/GameTui.java:137 | trimming twice is trimming once |
| JavaText.LowerChar | bk/src/main/java/me/ivy/GameTui.java:137 | an upper-case letter becomes a lower-case letter that upper-cases back to it; every other character, digits included, is left as it is |
| JavaText.ToLowerIdempotent | bk/src/main/java/me/ivy/GameTui.java:137 | lower-casing leaves no upper-case letter, so doing it twice is doing it once |
| JavaText.TrimToLower | bk/src/main/java/me/ivy/GameTui.java:137 | `trim` and `toLowerCase` commute: lower-casing neither adds nor removes a character `trim` cuts off |
| JavaText.CharSetSize | bk/src/main/java/me/ivy/GameHost.java:73 | the count of distinct characters is at most the length, and equals it exactly when no character repeats |
| Parameters.GameParameters.constructor | bk/src/main/java/me/ivy/GameParameters.java:7-9 | a new object holds the defaults 4 digits, 10 attempts, 30 seconds |
| BullsCows.DigitChars | bk/src/main/java/me/ivy/BullsCowsGame.java:16 | the list starts as the ten digit characters `'0'`..`'9'` in order |
| BullsCows.PermutationFacts | bk/src/main/java/me/ivy/BullsCowsGame.java:16 | any reordering of the list holds ten distinct digits and every digit |
| BullsCows.IndexOf | bk/src/main/java/me/ivy/BullsCowsGame.java:45 | `indexOf` gives the first position holding the character, and -1 exactly when it is absent |
| BullsCows.IndexOfDistinct | bk/src/main/java/me/ivy/BullsCowsGame.java:45 | in a list without repeats, `indexOf` finds every entry at its own position |
| BullsCows.Score | bk/src/main/java/me/ivy/BullsCowsGame.java:42-48 | bulls and cows are never negative, together at most the positions scored; all bulls leaves no cows |
| BullsCows.ScoreIsBullsAndCows | bk/src/main/java/me/ivy/BullsCowsGame.java:44-47 | for a guess of digits, the lookup by position gives exactly the textbook counts: positions that agree with the secret, and other positions whose digit is in the secret |
| BullsCows.NonDigitIsCow | bk/src/main/java/me/ivy/BullsCowsGame.java:45-47 | a character that is no digit has `indexOf` -1 and is counted as a cow |
| BullsCows.BullAt | bk/src/main/java/me/ivy/BullsCowsGame.java:46 | a position is a bull exactly when the guess has the list's entry there |
| BullsCows.BullsAllOrNot | bk/src/main/java/me/ivy/BullsCowsGame.java:44-46 | the first `k` positions are all bulls exactly when they spell the list's first `k` entries |
| BullsCows.WinIffSecret | bk/src/main/java/me/ivy/BullsCowsGame.java:44-47 | a guess of the right length scores `secretLength` bulls exactly when it is the secret |
| BullsCows.SecretScoresAllBulls | bk/src/main/java/me/ivy/BullsCowsGame.java:44-47 | the secret scored against itself gives `secretLength` bulls and no cows |
| BullsCows.ScoreAgainstListStarting12345 | bk/src/test/java/me/ivy/BullsCowsGameTest.java:40-49 | "1325" against any list starting `1,2,3,4,5`, length 4, scores 1 bull and 2 cows |
| BullsCows.ScoreExample | bk/src/test/java/me/ivy/BullsCowsGameTest.java:40-49 | the list `1,2,3,4,5,6,7,8,9,0`, length 4, guess "1325": 1 bull, 2 cows |
| BullsCows.BullsCowsGame.constructor | bk/src/main/java/me/ivy/BullsCowsGame.java:16-17 | a new game holds the digits in order and secret length 0 |
| BullsCows.BullsCowsGame.ShuffleDigits | bk/src/main/java/me/ivy/BullsCowsGame.java:25 | the shuffle keeps the list's length and its multiset of characters |
| BullsCows.BullsCowsGame.GenerateSecretNumber | bk/src/main/java/me/ivy/BullsCowsGame.java:19-27 | a length outside 1..10 throws IllegalArgumentException and changes nothing; otherwise the length is stored and the list is still a permutation of the digits |
| BullsCows.BullsCowsGame.GetSecretNumber | bk/src/main/java/me/ivy/BullsCowsGame.java:29-35 | the secret is the first `secretLength` entries: that many characters, all digits, none repeated; nothing changes |
| BullsCows.BullsCowsGame.TryGuess | bk/src/main/java/me/ivy/BullsCowsGame.java:37-51 | a guess of the wrong length throws IllegalArgumentException; otherwise the counts are `Score` of the guess; nothing changes |
| Tui.StatusRedraw | bk/src/main/java/me/ivy/GameTui.java:248-256 | a redraw is 15 characters longer than its text and starts with the escape character |
| Tui.StatusRedrawShape | bk/src/main/java/me/ivy/GameTui.java:248-256 | a redraw is save cursor, cursor up one row, carriage return, clear row, the text, restore cursor, in that order; a text without a line break gives a redraw without one |
| Tui.RedrawRoundTrip | bk/src/main/java/me/ivy/GameTui.java:248-256 | the status text can be read back out of its redraw |
| Tui.RemainingSeconds | bk/src/main/java/me/ivy/GameTui.java:207 | the seconds shown are never negative |
| Tui.RemainingSecondsIsCeiling | bk/src/main/java/me/ivy/GameTui.java:206-209 | with time left, the seconds shown are the ceiling of the milliseconds left over 1000, so at least 1; with none left, 0 |
| Tui.StatusTextAtDeadline | bk/src/main/java/me/ivy/GameTui.java:209-210 | with no time left the countdown text is the prefix and `" 0с"` |
| Tui.Countdown | bk/src/main/java/me/ivy/GameTui.java:217-220 | one redraw per tick, showing that tick's remaining seconds |
| Tui.Expiry | bk/src/main/java/me/ivy/GameTui.java:209 | the timeout check fires at the first tick with no time left, and at no earlier one |
| Tui.DeadlineRead | bk/src/main/java/me/ivy/GameTui.java:194-241 | a timed read returns a line exactly when every tick had time left and a line arrived, and then returns that line |
| Tui.DeadlineExpires | bk/src/main/java/me/ivy/GameTui.java:209-215 | at the first tick with no time left the read prints the `0с` redraw, a line break and `Время вышло.` after the countdown so far, and returns null |
| Tui.DeadlineOutlasted | bk/src/main/java/me/ivy/GameTui.java:222-239 | when every tick had time left, the read returns the line that arrived, or null on an interrupt (nothing more printed) or at the deadline (the timeout lines) |
| Tui.CountdownNeverShowsZero | bk/src/main/java/me/ivy/GameTui.java:207-218 | no countdown redraw shows `0с`; the only `0с` redraw is the timeout's, third from the end, followed by the notice |
| Tui.TimeoutEndsWithNotice | bk/src/main/java/me/ivy/GameTui.java:209-214 | a timed read that returns null for any reason but an interrupt has printed `Время вышло.` last |
| Tui.ReadAnswers | bk/src/main/java/me/ivy/GameTui.java:137-149 | every line is classified, after `trim` and `toLowerCase`, as blank, yes, no or unclear |
| Tui.AnswerIgnoresCase | bk/src/main/java/me/ivy/GameTui.java:137-149 | the answer does not depend on the case of the line: a line and its lower-cased form read the same |
| Tui.AnswerCaseExamples | bk/src/main/java/me/ivy/GameTui.java:137-149 | `YES` and ` Да ` read as yes, `НЕТ` and `N` as no |
| Tui.YesNoLoop | bk/src/main/java/me/ivy/GameTui.java:128-153 | `askYesNo` reads at most the lines there are, and reads none only at the end of input |
| Tui.YesNoLoopPrints | bk/src/main/java/me/ivy/GameTui.java:128-153 | `askYesNo` prints its prompt first and then alternates the hint `Ответь y/n` and the prompt, nothing else |
| Tui.YesNoLoopDecides | bk/src/main/java/me/ivy/GameTui.java:132-151 | `askYesNo` stops at the first blank or recognised answer, every earlier one being unclear; yes gives true, no false, blank or end of input the default |
| Tui.YesNoRunDecides | bk/src/main/java/me/ivy/GameTui.java:132-151 | the same, line by line: `y`/`yes`/`д`/`да` give true, `n`/`no`/`н`/`нет` false, a blank line or the end of input the default |
| Tui.YesNoStep | bk/src/main/java/me/ivy/GameTui.java:132-151 | one turn of `askYesNo`: blank, yes word and no word each settle in one line; anything else prints the hint and asks again |
| Tui.YesNoExamples | bk/src/test/java/me/ivy/GameTuiTest.java:18-35 | an empty line takes the default false; `да` is yes |
| Tui.AskIntLoop | bk/src/main/java/me/ivy/GameTui.java:58-93 | `askInt` returns the default, or the value of the in-range answer it stopped at |
| Tui.AskIntLoopPrints | bk/src/main/java/me/ivy/GameTui.java:58-93 | `askInt` prints its prompt first and otherwise only prompts and its two hints |
| Tui.AskIntRun | bk/src/main/java/me/ivy/GameTui.java:58-93 | `askInt` returns either the default or a value in `[min, max]` |
| Tui.AskIntLoopDecides | bk/src/main/java/me/ivy/GameTui.java:63-91 | `askInt` stops at the first blank or in-range answer, every earlier one being unparsable or out of range; blank or end of input gives the default |
| Tui.AskIntRunDecides | bk/src/main/java/me/ivy/GameTui.java:63-91 | the same, line by line on the trimmed and parsed input |
| Tui.AskIntStep | bk/src/main/java/me/ivy/GameTui.java:63-91 | one turn of `askInt`: blank gives the default; unparsable prints `Нужно целое число.` and asks again; out of range prints `Допустимый диапазон: min..max` and asks again; in range is returned |
| Tui.AskIntReadsNumber | bk/src/main/java/me/ivy/GameTui.java:75-91 | a line of plain digits is taken at once when in range, and is otherwise answered with the range hint |
| Tui.AskIntTakesNumber | bk/src/main/java/me/ivy/GameTui.java:84-91 | a line of plain digits in range is returned after reading that one line |
| Tui.AskIntExampleLines | bk/src/test/java/me/ivy/GameTuiTest.java:38-48 | `abc`, `11`, `5` with any range admitting 5 but not 11: the result is 5 after three lines, and both hints were printed |
| Tui.AskIntExample | bk/src/test/java/me/ivy/GameTuiTest.java:38-48 | the same for range 1..10 and default 4 |
| Tui.ChooseRun | bk/src/main/java/me/ivy/GameTui.java:101-119 | the defaults are kept exactly when the question is answered no; otherwise each field is its default or within its range (1..10, 1..999, 1..3600) |
| Tui.NumbersRun | bk/src/main/java/me/ivy/GameTui.java:113-118 | the three numbers are read one after another and always give new values |
| Tui.ChooseRunReads | bk/src/main/java/me/ivy/GameTui.java:113-118 | after a yes on one line, the values chosen are those of the three `askInt` reads in turn |
| Tui.CustomNumbers | bk/src/test/java/me/ivy/GameTuiTest.java:62-72 | `6`, `20`, `45` are each taken from one line by the three prompts |
| Tui.ChooseCustomLines | bk/src/test/java/me/ivy/GameTuiTest.java:62-72 | `y`, `6`, `20`, `45` set the three values whatever the defaults and whatever follows |
| Tui.ChooseKeepExample | bk/src/test/java/me/ivy/GameTuiTest.java:51-59 | a blank answer keeps the defaults |
| Tui.ChooseCustomExample | bk/src/test/java/me/ivy/GameTuiTest.java:62-72 | `y`, `6`, `20`, `45` give 6 digits, 20 attempts, 45 seconds |
| Tui.GameTui.constructor | bk/src/main/java/me/ivy/GameTui.java:27-31 | a new terminal has read nothing and printed nothing |
| Tui.GameTui.Println | bk/src/main/java/me/ivy/GameTui.java:38-40 | `println` appends the text and a line break |
| Tui.GameTui.PrintSeparator | bk/src/main/java/me/ivy/GameTui.java:45-47 | the separator is printed as one line |
| Tui.GameTui.ReadLineUnbounded | bk/src/main/java/me/ivy/GameTui.java:263-269 | the next line is returned and consumed; at the end of input null, with nothing consumed |
| Tui.GameTui.RedrawStatusLine | bk/src/main/java/me/ivy/GameTui.java:248-256 | the redraw of the text is appended to the output |
| Tui.GameTui.ReadLineWithDeadline | bk/src/main/java/me/ivy/GameTui.java:194-241 | the line returned and the output printed are those of `DeadlineRead` on the next event, which is consumed |
| Tui.GameTui.CountDown | bk/src/main/java/me/ivy/GameTui.java:204-220 | the polling loop redraws once per tick while time is left and stops at the first tick with none |
| Tui.GameTui.EndOfWait | bk/src/main/java/me/ivy/GameTui.java:222-239 | after a countdown with time left at every tick: the line, or null after an interrupt, or null and the timeout lines at the deadline |
| Tui.GameTui.PrintTimeout | bk/src/main/java/me/ivy/GameTui.java:209-215 | the timeout prints the `0с` redraw, an empty line and `Время вышло.` |
| Tui.GameTui.AskInt | bk/src/main/java/me/ivy/GameTui.java:58-93 | returns, consumes and prints what `AskIntRun` says for the unread lines; the value is the default or in `[min, max]` |
| Tui.GameTui.AskYesNo | bk/src/main/java/me/ivy/GameTui.java:128-153 | returns, consumes and prints what `YesNoRun` says for the unread lines |
| Tui.GameTui.ConfirmExit | bk/src/main/java/me/ivy/GameTui.java:160-163 | `confirmExit` is `askYesNo` with its own prompt and default no |
| Tui.GameTui.ChooseGameParameters | bk/src/main/java/me/ivy/GameTui.java:101-119 | prints the summary of the defaults; on no returns the very same `defaults` object, and on yes a new object holding the three values `ChooseRun` reads |
| Tui.GameTui.AskCustomParameters | bk/src/main/java/me/ivy/GameTui.java:113-118 | a new object whose fields are the three `askInt` answers, read one after another |
| Host.RejectionNoneIff | bk/src/main/java/me/ivy/GameHost.java:63-78 | a non-empty line passes the checks exactly when it has `secretLength` characters, all ASCII digits, none repeated |
| Host.RejectionOrder | bk/src/main/java/me/ivy/GameHost.java:63-77 | the checks come in a fixed order: wrong length gives `Надо n цифр`; a non-digit `Только цифры`; a repeat `Повторяющиеся цифры не допускаются` |
| Host.AttemptRun | bk/src/main/java/me/ivy/GameHost.java:36-79 | an attempt either yields a guess that passed every check, or ends the session by timeout, late input or a confirmed exit |
| Host.AttemptStep | bk/src/main/java/me/ivy/GameHost.java:37-79 | one read of an attempt, case by case: null, late, empty, refused, accepted |
| Host.GameRun | bk/src/main/java/me/ivy/GameHost.java:29-97 | the count of scored guesses never decreases or passes `maxAttempts`; a win counts the winning guess |
| Host.GameStep | bk/src/main/java/me/ivy/GameHost.java:30-92 | one attempt under the status `Попытка n/max`, with n = `attemptsUsed + 1`: an ended attempt ends the session uncounted; a guess is counted once and either wins or prints `Быков: b, Коров: c` and play goes on |
| Host.ScoredGuessIsWellFormed | bk/src/main/java/me/ivy/GameHost.java:63-82 | a guess that reaches `tryGuess` has exactly `secretLength` ASCII digits, none repeated, so `tryGuess` never throws |
| Host.NoLineEndsSession | bk/src/main/java/me/ivy/GameHost.java:39-52 | null, or a line after the deadline, ends the session with `Игра окончена: вышло время.` and the secret; no guess is counted |
| Host.EmptyLineAsksToExit | bk/src/main/java/me/ivy/GameHost.java:53-62 | an empty line asks to confirm the exit: yes ends the session with the secret, no repeats the same attempt under the same count and status |
| Host.RejectedLineRepeatsAttempt | bk/src/main/java/me/ivy/GameHost.java:63-77 | a refused line prints why and repeats the same attempt under the same count and status |
| Host.GuessWinsIffSecret | bk/src/main/java/me/ivy/GameHost.java:82-92 | the attempt that reads a guess wins, and is the last one counted, exactly when the guess is the secret |
| Host.ExhaustedAfterAll | bk/src/main/java/me/ivy/GameHost.java:29-97 | the count never passes `maxAttempts`; the attempts run out only when all are counted; a session that counted all of them was won on the last one or ran out |
| Host.ExhaustedNotice | bk/src/main/java/me/ivy/GameHost.java:95-96 | a session whose attempts ran out ends with `Попытки закончились.` and the secret |
| Host.AttemptRevealsOnlyAtEnd | bk/src/main/java/me/ivy/GameHost.java:39-62 | an attempt shows the secret nowhere until it ends the session, and then only in its last line |
| Host.SecretShownOnceAtEnd | bk/src/main/java/me/ivy/GameHost.java:41-96 | every session that generated its secret shows it exactly once, in its last line: `Ты смог!, ` and the secret when won, `Загаданное число: ` and the secret otherwise |
| Host.GameHost.constructor | bk/src/main/java/me/ivy/GameHost.java:19-22 | the host keeps the game and the terminal it is given |
| Host.GameHost.ReadGuess | bk/src/main/java/me/ivy/GameHost.java:37-79 | the inner loop returns, consumes and prints what `AttemptRun` says for the unread events and lines |
| Host.GameHost.HostGame | bk/src/main/java/me/ivy/GameHost.java:24-98 | a length outside 1..10 is refused with nothing changed or printed; otherwise the secret length is stored, the list stays a permutation, and the outcome, guesses counted, input consumed and output are those of `GameRun` |
| Host.GameHost.PlayAttempts | bk/src/main/java/me/ivy/GameHost.java:29-97 | the attempt loop ends, counts, consumes and prints as `GameRun` says |

## Left out

- The wall clock, `reader.ready()`, `Thread.sleep` and interruption. Each timed read is a scripted `ReadEvent`; the deadline `now + timeToGuess * 1000` and the `long` arithmetic on it are not modelled, so `timeToGuess` plays no part in a session.
- Tui.GameTui.CountDown: models only the passes of the polling loop that redraw the status; the 250 ms throttle and the passes that only sleep are not modelled.
- Host.GameHost.ReadGuess: whether a line came in late is what `System.currentTimeMillis()` says after the read; here the event says it (`Late`).
- In Java the prompts and the timed reads share one `BufferedReader`; here they read two separate scripts (lines and events). An exhausted event script reads as a timeout with no ticks.
- Tui.DeadlineRead: an event may end in a line, a late line or an interrupt with no ticks before it, a read with no countdown redraw at all. Java cannot do this, since its first polling pass always redraws while time is left. The lemmas about timed reads hold for these extra reads too.
- Host.RejectedLineRepeatsAttempt: Java sets the attempt's deadline once, before the inner loop (bk/src/main/java/me/ivy/GameHost.java:33), and does not renew it when it refuses a line. The model has no deadline: the event script says when time runs out, so the lemma cannot state this.
- Host.RejectionOrder: strings here are sequences of Unicode code points, while Java's `length()`, `charAt` and `chars()` count UTF-16 units. A guess holding a character outside the Basic Multilingual Plane (an emoji, say) can therefore get `Надо n цифр` where Java prints `Только цифры`, or the reverse. Such a guess is refused either way and never reaches `tryGuess`.
- `IOException` from the reader, which the Java code turns into a `RuntimeException`.
- `readLineWithCountdown` (bk/src/main/java/me/ivy/GameTui.java:173-184) is not called by the core and is not modelled.
- `IBullsCowsGame` and `IGameHost` are interfaces; `GameHost` holds the concrete `BullsCowsGame` instead.
- Host.GameHost.HostGame: the IllegalArgumentException from `generateSecretNumber` propagates out of `hostGame` in Java; here it becomes the `Refused` outcome.
- The randomness of `Collections.shuffle`: the swap partner is chosen nondeterministically, so only the permutation is stated.
- JavaText.ParseInt: `Integer.parseInt` also accepts non-ASCII Unicode decimal digits; only ASCII digits are modelled.
- JavaText.LowerChar: `toLowerCase` depends on the default locale and covers all of Unicode; only ASCII `A`..`Z`, Cyrillic `А`..`Я` and `Ё` are lower-cased here.
- `System.lineSeparator()` is taken to be `"\n"`; `flush` is not modelled.
- Tui.GameTui.RedrawStatusLine: the six `print` calls of a redraw are recorded as one output chunk.
- Logging through log4j; `GameParameters.toString` and the `GuessResult` getters, which only serve it and the tests.
- `Main.java`: start-up and the replay loop.
