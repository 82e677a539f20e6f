/**
 * `check_response`: validation of the decoded API answer and extraction of
 * the `homeworks` list.
 */
module Validator {
  import opened Wrappers
  import opened JsonValues

  const HomeworksKey := "homeworks"

  /** The four exceptions `check_response` raises, in the order it raises them. */
  datatype CheckError =
    | EmptyResponse(response: Json)  // Exception: the answer is falsy
    | NotDict                        // TypeError: the answer is not a dict
    | MissingHomeworks               // KeyError: no `homeworks`, or it is null
    | NotList                        // Exception: `homeworks` is not a list

  /**
   * Validates `response` in a fixed order and returns its `homeworks` list
   * unchanged. Each error kind is characterised exactly: it occurs iff every
   * earlier check passed and its own check fails.
   */
  function CheckResponse(response: Json): (r: Result<seq<Json>, CheckError>)
    ensures r == Failure(EmptyResponse(response)) <==> Falsy(response)
    ensures r == Failure(NotDict) <==> !Falsy(response) && !response.JObj?
    ensures r == Failure(MissingHomeworks) <==>
              && response.JObj? && |response.fields| > 0
              && (HomeworksKey !in response.fields || response.fields[HomeworksKey] == JNull)
    ensures r == Failure(NotList) <==>
              && response.JObj? && |response.fields| > 0
              && HomeworksKey in response.fields
              && response.fields[HomeworksKey] != JNull
              && !response.fields[HomeworksKey].JList?
    ensures r.Success? <==>
              && response.JObj? && |response.fields| > 0
              && HomeworksKey in response.fields && response.fields[HomeworksKey].JList?
    ensures r.Success? ==> r.value == response.fields[HomeworksKey].items
  {
    if Falsy(response) then Failure(EmptyResponse(response))
    else if !response.JObj? then Failure(NotDict)
    else
      match Get(response.fields, HomeworksKey)
      case None => Failure(MissingHomeworks)
      case Some(homeworks) =>
        if !homeworks.JList? then Failure(NotList) else Success(homeworks.items)
  }

  const EmptyResponseText := "Ответ от API содержит пустой словарь response "
  const NotDictText := "Ошибка типа ответа от сервера"
  const MissingHomeworksMessage := "Отсутствует ключ \"homeworks\" в словаре response"
  const NotListText := "Данные ключа \"homeworks\" не являются списком"

  /**
   * The text `str(e)` of the exception raised for each error: the empty
   * answer is shown by its own `str()`, and a KeyError renders as the
   * quoted repr of its message.
   */
  function CheckErrorText(e: CheckError): (r: string)
    ensures e.EmptyResponse? ==>
              && |r| >= |EmptyResponseText|
              && r[..|EmptyResponseText|] == EmptyResponseText
              && r[|EmptyResponseText|..] == PyStr(e.response)
    ensures e.MissingHomeworks? ==> r == KeyErrorText(MissingHomeworksMessage)
  {
    match e
    case EmptyResponse(response) => EmptyResponseText + PyStr(response)
    case NotDict => NotDictText
    case MissingHomeworks => KeyErrorText(MissingHomeworksMessage)
    case NotList => NotListText
  }

  /** The errors `check_response` can actually raise: an empty-answer error carries a falsy answer. */
  predicate Raisable(e: CheckError) {
    e.EmptyResponse? ==> Falsy(e.response)
  }

  /**
   * Different validation failures give different exception texts, so a
   * change from one to another is always reported as a new incident.
   */
  lemma CheckErrorTextsDistinct(e1: CheckError, e2: CheckError)
    requires Raisable(e1) && Raisable(e2)
    requires CheckErrorText(e1) == CheckErrorText(e2)
    ensures e1 == e2
  {
  }

  /** Every error `check_response` returns is one it can raise. */
  lemma CheckResponseErrorsRaisable(response: Json)
    requires CheckResponse(response).Failure?
    ensures Raisable(CheckResponse(response).error)
  {
  }

  /**
   * A successful check returns the list of homework records exactly as the
   * answer holds it; in particular an empty list is accepted, and nothing
   * besides `homeworks` in the answer influences the result.
   */
  lemma CheckResponseReturnsHomeworks(fields: map<string, Json>, homeworks: seq<Json>)
    requires HomeworksKey in fields && fields[HomeworksKey] == JList(homeworks)
    ensures CheckResponse(JObj(fields)) == Success(homeworks)
  {
  }

  /** The falsy answers render as Python prints them. */
  lemma EmptyResponseTexts()
    ensures CheckErrorText(EmptyResponse(JObj(map[]))) == "Ответ от API содержит пустой словарь response {}"
    ensures CheckErrorText(EmptyResponse(JList([]))) == "Ответ от API содержит пустой словарь response []"
    ensures CheckErrorText(EmptyResponse(JNull)) == "Ответ от API содержит пустой словарь response None"
  {
  }
}
