/** Concrete runs of the bot on small answers from the homework API. */
module Scenarios {
  import opened Wrappers
  import opened JsonValues
  import opened Validator
  import opened Formatter
  import opened Config
  import opened PollLoop

  const Hw1Record := JObj(map["status" := JStr("approved"), "homework_name" := JStr("HW1")])
  const Hw1Answer := JObj(map["homeworks" := JList([Hw1Record])])
  const Hw1Message := "Изменился статус проверки работы \"HW1\". " + ApprovedVerdict

  const Ready := State("", "", 100, [])

  /** Two passes of the loop, unfolded. */
  lemma RunTwice(s: State, p1: Poll, n1: int, p2: Poll, n2: int)
    ensures Run(s, [(p1, n1), (p2, n2)]) == Step(Step(s, p1, n1), p2, n2)
  {
    var ps := [(p1, n1), (p2, n2)];
    var s1 := Step(s, p1, n1);
    assert ps[1..] == [(p2, n2)];
    assert [(p2, n2)][1..] == [];
    assert Run(s, ps) == Run(s1, [(p2, n2)]);
    assert Run(s1, [(p2, n2)]) == Run(Step(s1, p2, n2), []);
  }

  /** One approved homework, polled twice: one message, then silence. */
  lemma ApprovedHomeworkSentOnce()
    ensures Run(Ready, [(Body(Hw1Answer), 106), (Body(Hw1Answer), 112)]) == State(Hw1Message, "", 112, [Hw1Message])
  {
    CheckResponseReturnsHomeworks(Hw1Answer.fields, [Hw1Record]);
    RecognisedStatusMessage([Hw1Record], "approved", "HW1");
    assert HomeworkStatuses["approved"] == ApprovedVerdict;
    assert "Изменился статус проверки работы \"" + "HW1" + "\". " + ApprovedVerdict == Hw1Message;
    assert ParseStatus([Hw1Record]) == Success(Hw1Message);
    assert Process(Body(Hw1Answer)) == Success(Hw1Message);
    RunTwice(Ready, Body(Hw1Answer), 106, Body(Hw1Answer), 112);
  }

  /** An empty answer, polled twice: one incident message, the cursor unchanged. */
  lemma EmptyAnswerReportedOnce()
    ensures var m := "Сбой в работе программы: " + "Ответ от API содержит пустой словарь response " + "{}";
            Run(Ready, [(Body(JObj(map[])), 106), (Body(JObj(map[])), 112)]) == State("", m, 100, [m])
  {
    var e := JObj(map[]);
    assert CheckResponse(e) == Failure(EmptyResponse(e));
    assert Process(Body(e)) == Failure(Invalid(EmptyResponse(e)));
    assert PyStr(e) == "{}";
    assert Incident(Invalid(EmptyResponse(e)))
        == "Сбой в работе программы: " + "Ответ от API содержит пустой словарь response " + "{}";
    var m := "Сбой в работе программы: " + "Ответ от API содержит пустой словарь response " + "{}";
    assert Step(Ready, Body(e), 106) == State("", m, 100, [m]);
    RunTwice(Ready, Body(e), 106, Body(e), 112);
  }

  /** An empty homework list is an ordinary answer: its fixed sentence is sent and the cursor moves. */
  lemma EmptyListIsAnAnswer()
    ensures Step(Ready, Body(JObj(map["homeworks" := JList([])])), 106) ==
              State(NoWorksMessage, "", 106, [NoWorksMessage])
  {
  }

  /** A missing chat id stops `main` before the first poll, however the other two are set. */
  lemma MissingChatIdStops(practicum: string, telegram: string, botCreated: bool, now: int)
    ensures Start(Some(practicum), Some(telegram), None, botCreated, now) == Failure(MissingVariables)
    ensures StartFailureText(MissingVariables) == Some("Не удалось получить переменные окружения")
  {
  }

  /** An empty Telegram token passes the variable check but stops `main` if the client refuses it. */
  lemma RejectedTelegramTokenStops(now: int)
    ensures CheckTokens(Some("p"), Some(""), Some("1"))
    ensures Start(Some("p"), Some(""), Some("1"), false, now) == Failure(BotRejected)
  {
  }
}
