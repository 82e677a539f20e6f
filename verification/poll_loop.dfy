/**
 * `main`: the start-up gate and one iteration of the polling loop, as a pure
 * step function over the bot's memory (last answer, last error text, query
 * cursor) and the list of messages handed to Telegram so far.
 */
module PollLoop {
  import opened Wrappers
  import opened JsonValues
  import opened Validator
  import opened Formatter
  import opened Config

  /** What one call of `get_api_answer` produced. */
  datatype Poll =
    | TransportError(description: string)  // the request failed; `str()` of the exception
    | Body(response: Json)                 // the decoded body of a 200 answer

  /** Everything the `except Exception` clause of the loop catches. */
  datatype Fault =
    | Transport(description: string)
    | Invalid(check: CheckError)
    | Unparsable(parse: ParseError)

  /**
   * The loop's variables: `current_answer`, `current_error`,
   * `current_timestamp`, and every message sent so far, oldest first.
   */
  datatype State = State(answer: string, error: string, timestamp: int, sent: seq<string>)

  const FailurePrefix := "Сбой в работе программы: "
  /** The text of the exception `main` raises when `check_tokens` fails. */
  const StartupFailure := "Не удалось получить переменные окружения"

  /** Why `main` raised before its first poll. */
  datatype StartFailure =
    | MissingVariables  // `check_tokens` failed: the exception with the start-up text
    | BotRejected       // `telegram.Bot` refused the Telegram token

  /**
   * The text `str(error)` of a caught exception, which the incident message
   * embeds: a transport failure's own description, or the exact text of the
   * validation or formatting exception.
   */
  function FaultText(f: Fault): (r: string)
    ensures f.Transport? ==> r == f.description
    ensures f.Invalid? ==> r == CheckErrorText(f.check)
    ensures f.Unparsable? ==> r == ParseErrorText(f.parse)
  {
    match f
    case Transport(description) => description
    case Invalid(e) => CheckErrorText(e)
    case Unparsable(e) => ParseErrorText(e)
  }

  /** The incident message sent for a caught exception. */
  function Incident(f: Fault): (m: string)
    ensures IsIncident(m)
  {
    FailurePrefix + FaultText(f)
  }

  /**
   * Different validation failures, or formatting failures that Python
   * renders differently, give different incident messages, so each such
   * change reaches the user.
   */
  lemma IncidentsDistinguishFailures(f1: Fault, f2: Fault)
    requires || (f1.Invalid? && f2.Invalid? && Validator.Raisable(f1.check) && Validator.Raisable(f2.check))
             || (f1.Unparsable? && f2.Unparsable? && Formatter.Raisable(f1.parse) && Formatter.Raisable(f2.parse))
    requires Incident(f1) == Incident(f2)
    ensures f1.Invalid? ==> f1 == f2
    ensures f1.Unparsable? ==> SameReport(f1.parse, f2.parse)
  {
    assert FaultText(f1) == Incident(f1)[|FailurePrefix|..] == FaultText(f2);
    if f1.Invalid? {
      CheckErrorTextsDistinct(f1.check, f2.check);
    } else {
      ParseErrorTextsAgree(f1.parse, f2.parse);
    }
  }

  predicate IsIncident(m: string) {
    |m| >= |FailurePrefix| && m[..|FailurePrefix|] == FailurePrefix
  }

  /**
   * `main` before the loop. The variables are checked first; only then is
   * the Telegram client built, and whether its constructor accepts the token
   * is the `botCreated` argument. With both passed the loop starts from empty
   * memory and the cursor at the current time; otherwise `main` raises and
   * never polls.
   */
  function Start(practicum: Option<string>, telegram: Option<string>, chatId: Option<string>,
                 botCreated: bool, now: int): (r: Result<State, StartFailure>)
    ensures r.Success? <==> practicum.Some? && telegram.Some? && chatId.Some? && botCreated
    ensures r.Success? ==> r.value == State("", "", now, [])
    ensures r == Failure(MissingVariables) <==> !(practicum.Some? && telegram.Some? && chatId.Some?)
    ensures r == Failure(BotRejected) <==> practicum.Some? && telegram.Some? && chatId.Some? && !botCreated
  {
    if !CheckTokens(practicum, telegram, chatId) then Failure(MissingVariables)
    else if !botCreated then Failure(BotRejected)
    else Success(State("", "", now, []))
  }

  /** The text of the start-up exception for a missing variable. */
  function StartFailureText(f: StartFailure): (r: Option<string>)
    ensures r.Some? <==> f.MissingVariables?
    ensures r.Some? ==> r.value == StartupFailure
  {
    match f
    case MissingVariables => Some(StartupFailure)
    case BotRejected => None
  }

  /** The `try` body: the answer, or the first exception, of request, validation and formatting. */
  function Process(poll: Poll): (r: Result<string, Fault>)
    ensures poll.TransportError? ==> r == Failure(Transport(poll.description))
    ensures poll.Body? && CheckResponse(poll.response).Failure? ==>
              r == Failure(Invalid(CheckResponse(poll.response).error))
    ensures poll.Body? && CheckResponse(poll.response).Success? ==>
              r == ParseStatus(CheckResponse(poll.response).value).MapFailure(e => Unparsable(e))
  {
    match poll
    case TransportError(description) => Failure(Transport(description))
    case Body(response) =>
      var homeworks :- CheckResponse(response).MapFailure(e => Invalid(e));
      ParseStatus(homeworks).MapFailure(e => Unparsable(e))
  }

  /**
   * One pass of the `while True` loop, with `now` the clock reading taken
   * after a successful poll. A failure sends its incident message unless it
   * equals the last one and leaves the answer and cursor alone; a success
   * moves the cursor to `now` and sends the answer unless it equals the
   * last one, leaving the error memory alone.
   */
  function Step(s: State, poll: Poll, now: int): (s': State)
    ensures Process(poll).Failure? ==>
              var m := Incident(Process(poll).error);
              && s'.error == m && s'.answer == s.answer && s'.timestamp == s.timestamp
              && (m != s.error ==> s'.sent == s.sent + [m])
              && (m == s.error ==> s'.sent == s.sent)
    ensures Process(poll).Success? ==>
              var a := Process(poll).value;
              && s'.answer == a && s'.error == s.error && s'.timestamp == now
              && (a != s.answer ==> s'.sent == s.sent + [a])
              && (a == s.answer ==> s'.sent == s.sent)
  {
    match Process(poll)
    case Failure(f) =>
      var m := Incident(f);
      if m != s.error then s.(error := m, sent := s.sent + [m]) else s
    case Success(a) =>
      var s1 := s.(timestamp := now);
      if a != s.answer then s1.(answer := a, sent := s.sent + [a]) else s1
  }

  /**
   * Successive passes of the loop over a finite list of polls and clock
   * readings: earlier messages are never changed and each pass sends at most
   * one.
   */
  function Run(s: State, polls: seq<(Poll, int)>): (r: State)
    ensures s.sent <= r.sent
    ensures |r.sent| <= |s.sent| + |polls|
    decreases |polls|
  {
    if |polls| == 0 then s else Run(Step(s, polls[0].0, polls[0].1), polls[1..])
  }

  /** The same outcome twice in a row: the second pass sends nothing. */
  lemma RepeatSendsNothing(s: State, poll: Poll, now1: int, now2: int)
    ensures Step(Step(s, poll, now1), poll, now2).sent == Step(s, poll, now1).sent
  {
  }

  /**
   * Answers and errors are remembered independently: an answer that was
   * sent, then interrupted by a failure, is not sent again when it comes
   * back unchanged; nor is the failure's incident once the failure recurs.
   */
  lemma FailureDoesNotResetAnswer(s: State, answer: Poll, failure: Poll, n1: int, n2: int, n3: int, n4: int)
    requires Process(answer).Success? && Process(failure).Failure?
    ensures var s2 := Step(Step(s, answer, n1), failure, n2);
            && Step(s2, answer, n3).sent == s2.sent
            && Step(Step(s2, answer, n3), failure, n4).sent == s2.sent
  {
  }

  /** A run followed by one more pass is the longer run. */
  lemma {:induction false} RunAppend(s: State, polls: seq<(Poll, int)>, poll: Poll, now: int)
    ensures Run(s, polls + [(poll, now)]) == Step(Run(s, polls), poll, now)
    decreases |polls|
  {
    if |polls| == 0 {
      assert [(poll, now)][1..] == [];
    } else {
      var s1 := Step(s, polls[0].0, polls[0].1);
      assert (polls + [(poll, now)])[1..] == polls[1..] + [(poll, now)];
      RunAppend(s1, polls[1..], poll, now);
    }
  }

  /**
   * The cursor after a run: the clock reading of the last pass whose request,
   * validation and formatting all succeeded, or the starting cursor if none did.
   */
  function CursorAfter(start: int, polls: seq<(Poll, int)>): int
    decreases |polls|
  {
    if |polls| == 0 then start
    else if Process(polls[|polls| - 1].0).Success? then polls[|polls| - 1].1
    else CursorAfter(start, polls[..|polls| - 1])
  }

  /** Failed passes never move the cursor; a successful pass sets it to its clock reading. */
  lemma {:induction false} RunCursor(s: State, polls: seq<(Poll, int)>)
    ensures Run(s, polls).timestamp == CursorAfter(s.timestamp, polls)
    decreases |polls|
  {
    if |polls| > 0 {
      var init := polls[..|polls| - 1];
      var last := polls[|polls| - 1];
      assert polls == init + [(last.0, last.1)];
      RunAppend(s, init, last.0, last.1);
      RunCursor(s, init);
    }
  }

  /** Answers and incident messages never share a text. */
  lemma AnswerIsNotIncident(poll: Poll)
    requires Process(poll).Success?
    ensures !IsIncident(Process(poll).value)
  {
    var homeworks := CheckResponse(poll.response).value;
    AnswerShape(homeworks);
    var a := Process(poll).value;
    assert a == ParseStatus(homeworks).value;
    assert a[0] == 'В' || a[0] == 'И' by {
      if a != NoWorksMessage {
        assert a[0] == a[..|MessagePrefix|][0];
      }
    }
    assert FailurePrefix[0] == 'С';
  }

  /** The messages of one kind (answers, or incidents) among those sent. */
  function Filter(sent: seq<string>, incidents: bool): (r: seq<string>)
    ensures |r| <= |sent|
    ensures forall k :: 0 <= k < |r| ==> IsIncident(r[k]) == incidents
    decreases |sent|
  {
    if |sent| == 0 then []
    else
      var rest := Filter(sent[..|sent| - 1], incidents);
      if IsIncident(sent[|sent| - 1]) == incidents then rest + [sent[|sent| - 1]] else rest
  }

  lemma FilterAppend(sent: seq<string>, m: string, incidents: bool)
    ensures Filter(sent + [m], incidents) ==
              if IsIncident(m) == incidents then Filter(sent, incidents) + [m] else Filter(sent, incidents)
  {
  }

  predicate NoAdjacentRepeats(ms: seq<string>) {
    forall k :: 0 < k < |ms| ==> ms[k - 1] != ms[k]
  }

  function LastOrEmpty(ms: seq<string>): string {
    if |ms| == 0 then "" else ms[|ms| - 1]
  }

  /**
   * What the loop's memory keeps true: the remembered answer is the last
   * answer sent and the remembered error the last incident sent (or empty
   * before the first), and neither kind contains the same text twice in a
   * row.
   */
  predicate DedupInvariant(s: State) {
    && LastOrEmpty(Filter(s.sent, false)) == s.answer
    && LastOrEmpty(Filter(s.sent, true)) == s.error
    && NoAdjacentRepeats(Filter(s.sent, false))
    && NoAdjacentRepeats(Filter(s.sent, true))
  }

  lemma StartEstablishesInvariant(practicum: Option<string>, telegram: Option<string>, chatId: Option<string>,
                                  botCreated: bool, now: int)
    requires Start(practicum, telegram, chatId, botCreated, now).Success?
    ensures DedupInvariant(Start(practicum, telegram, chatId, botCreated, now).value)
    ensures Start(practicum, telegram, chatId, botCreated, now).value.sent == []
  {
  }

  /** Sending message `m` of one kind extends that kind's history and leaves the other's alone. */
  lemma SendPreservesInvariant(s: State, m: string, incident: bool)
    requires DedupInvariant(s)
    requires IsIncident(m) == incident
    requires m != (if incident then s.error else s.answer)
    ensures DedupInvariant(if incident then s.(error := m, sent := s.sent + [m])
                           else s.(answer := m, sent := s.sent + [m]))
  {
  }

  /** One pass of the loop keeps the memory consistent with what was sent, and sends at most one message. */
  lemma StepPreservesInvariant(s: State, poll: Poll, now: int)
    requires DedupInvariant(s)
    ensures DedupInvariant(Step(s, poll, now))
    ensures |Step(s, poll, now).sent| <= |s.sent| + 1
    ensures s.sent <= Step(s, poll, now).sent
  {
    match Process(poll)
    case Failure(f) =>
      var m := Incident(f);
      if m != s.error {
        SendPreservesInvariant(s, m, true);
      }
    case Success(a) =>
      AnswerIsNotIncident(poll);
      if a != s.answer {
        SendPreservesInvariant(s.(timestamp := now), a, false);
      }
  }

  /**
   * Over any finite run the bot never sends the same answer twice in a row,
   * nor the same incident twice in a row, and its memory always holds the
   * last answer and the last incident sent.
   */
  lemma {:induction false} RunPreservesInvariant(s: State, polls: seq<(Poll, int)>)
    requires DedupInvariant(s)
    ensures DedupInvariant(Run(s, polls))
    decreases |polls|
  {
    if |polls| > 0 {
      var s1 := Step(s, polls[0].0, polls[0].1);
      StepPreservesInvariant(s, polls[0].0, polls[0].1);
      RunPreservesInvariant(s1, polls[1..]);
    }
  }

  /** A sustained condition (the same poll outcome over and over) is reported at most once. */
  lemma {:induction false} SustainedConditionSentOnce(s: State, poll: Poll, clock: seq<int>)
    ensures |Run(s, Repeat(poll, clock)).sent| <= |s.sent| + 1
    decreases |clock|
  {
    if |clock| > 0 {
      var s1 := Step(s, poll, clock[0]);
      assert Repeat(poll, clock)[1..] == Repeat(poll, clock[1..]);
      RepeatedAfterFirstSendsNothing(s1, poll, clock[1..], clock[0]);
    }
  }

  lemma {:induction false} RepeatedAfterFirstSendsNothing(s: State, poll: Poll, clock: seq<int>, first: int)
    requires s == Step(s, poll, first).(timestamp := s.timestamp)
    ensures Run(s, Repeat(poll, clock)).sent == s.sent
    decreases |clock|
  {
    if |clock| > 0 {
      var s1 := Step(s, poll, clock[0]);
      assert Repeat(poll, clock)[1..] == Repeat(poll, clock[1..]);
      RepeatedAfterFirstSendsNothing(s1, poll, clock[1..], first);
    }
  }

  function Repeat(poll: Poll, clock: seq<int>): (ps: seq<(Poll, int)>)
    ensures |ps| == |clock|
    ensures forall k :: 0 <= k < |ps| ==> ps[k] == (poll, clock[k])
  {
    seq(|clock|, k requires 0 <= k < |clock| => (poll, clock[k]))
  }
}
