/**
 * `parse_status` and the `HOMEWORK_STATUSES` table: turning the list of
 * homework records into the sentence the bot sends.
 */
module Formatter {
  import opened Wrappers
  import opened JsonValues

  const StatusKey := "status"
  const NameKey := "homework_name"

  const ApprovedVerdict := "Работа проверена: ревьюеру всё понравилось. Ура!"
  const ReviewingVerdict := "Работа взята на проверку ревьюером."
  const RejectedVerdict := "Работа проверена: у ревьюера есть замечания."

  /** `HOMEWORK_STATUSES`: the recognised review statuses and their verdict phrases. */
  const HomeworkStatuses: map<string, string> := map[
    "approved" := ApprovedVerdict,
    "reviewing" := ReviewingVerdict,
    "rejected" := RejectedVerdict
  ]

  /** The answer for an empty list of homeworks (two literals, so that its characters are visible to the verifier). */
  const NoWorksMessage := "В настоящее время у Вас " + "нет работ на проверке"

  const MessagePrefix := "Изменился статус проверки работы \""
  const NameSeparator := "\". "

  /** The exceptions raised while formatting the first record. */
  datatype ParseError =
    | NoGetMethod(record: Json)      // AttributeError: the record is not a dict
    | MissingStatus                  // KeyError: no `status`, or it is null
    | MissingName                    // KeyError: no `homework_name`, or it is null
    | UnhashableStatus(status: Json) // TypeError: a list or dict used as a table key
    | UnknownStatus(status: Json)    // KeyError: the status is not in the table

  /** The sentence announcing that homework `name` received `verdict`. */
  function StatusMessage(name: string, verdict: string): (m: string)
    ensures |m| == |MessagePrefix| + |name| + |NameSeparator| + |verdict|
    ensures m[..|MessagePrefix|] == MessagePrefix
    ensures m[|MessagePrefix|..|MessagePrefix| + |name|] == name
    ensures m[|m| - |verdict|..] == verdict
  {
    MessagePrefix + name + NameSeparator + verdict
  }

  /** `HOMEWORK_STATUSES.get(status)`, raising TypeError for an unhashable status. */
  function Verdict(status: Json): (r: Result<Option<string>, ParseError>)
    ensures r.Failure? <==> !Hashable(status)
    ensures r.Failure? ==> r.error == UnhashableStatus(status)
    ensures r.Success? && r.value.Some? <==> status.JStr? && status.s in HomeworkStatuses
    ensures r.Success? && r.value.Some? ==> r.value.value == HomeworkStatuses[status.s]
  {
    if !Hashable(status) then Failure(UnhashableStatus(status))
    else if status.JStr? && status.s in HomeworkStatuses then Success(Some(HomeworkStatuses[status.s]))
    else Success(None)
  }

  /** The checks on one homework record, in the order `parse_status` makes them. */
  function ParseRecord(record: Json): (r: Result<string, ParseError>)
    ensures r == Failure(NoGetMethod(record)) <==> !record.JObj?
    ensures r == Failure(MissingStatus) <==>
              record.JObj? && Get(record.fields, StatusKey).None?
    ensures r == Failure(MissingName) <==>
              && record.JObj? && Get(record.fields, StatusKey).Some?
              && Get(record.fields, NameKey).None?
    ensures r.Failure? && r.error.UnhashableStatus? <==>
              && record.JObj? && Get(record.fields, StatusKey).Some?
              && Get(record.fields, NameKey).Some?
              && !Hashable(record.fields[StatusKey])
    ensures r.Failure? && r.error.UnknownStatus? <==>
              && record.JObj? && Get(record.fields, StatusKey).Some?
              && Get(record.fields, NameKey).Some?
              && Hashable(record.fields[StatusKey])
              && !(record.fields[StatusKey].JStr? && record.fields[StatusKey].s in HomeworkStatuses)
    ensures r.Success? <==>
              && record.JObj? && NameKey in record.fields && record.fields[NameKey] != JNull
              && StatusKey in record.fields && record.fields[StatusKey].JStr?
              && record.fields[StatusKey].s in HomeworkStatuses
    ensures r.Success? ==>
              r.value == StatusMessage(PyStr(record.fields[NameKey]),
                                       HomeworkStatuses[record.fields[StatusKey].s])
  {
    if !record.JObj? then Failure(NoGetMethod(record))
    else
      match Get(record.fields, StatusKey)
      case None => Failure(MissingStatus)
      case Some(status) =>
        match Get(record.fields, NameKey)
        case None => Failure(MissingName)
        case Some(name) =>
          match Verdict(status)
          case Failure(e) => Failure(e)
          case Success(None) => Failure(UnknownStatus(status))
          case Success(Some(verdict)) => Success(StatusMessage(PyStr(name), verdict))
  }

  /**
   * `parse_status`: the fixed sentence for an empty list, otherwise the
   * outcome of checking the first record only.
   */
  function ParseStatus(homeworks: seq<Json>): (r: Result<string, ParseError>)
    ensures |homeworks| == 0 ==> r == Success(NoWorksMessage)
    ensures |homeworks| > 0 ==> r == ParseRecord(homeworks[0])
  {
    if |homeworks| > 0 then ParseRecord(homeworks[0]) else Success(NoWorksMessage)
  }

  const MissingStatusMessage := "Отсутствует ключ \"status\" в словаре homework"
  const MissingNameMessage := "Отсутствует ключ \"homework_name\" в словаре homework"
  const UnknownStatusMessage := "Не известный статус домашней работы"

  /**
   * The text `str(e)` of each exception: the three KeyErrors render as the
   * quoted repr of their fixed messages, so an unknown status never shows
   * which status it was; the AttributeError and the TypeError name only the
   * offending value's type.
   */
  function ParseErrorText(e: ParseError): (r: string)
    ensures e.MissingStatus? ==> r == KeyErrorText(MissingStatusMessage)
    ensures e.MissingName? ==> r == KeyErrorText(MissingNameMessage)
    ensures e.UnknownStatus? ==> r == KeyErrorText(UnknownStatusMessage)
    ensures e.NoGetMethod? ==> |r| == |TypeName(e.record)| + 32 && r[1..|r| - 31] == TypeName(e.record)
    ensures e.UnhashableStatus? ==> |r| == |TypeName(e.status)| + 19 && r[18..|r| - 1] == TypeName(e.status)
  {
    match e
    case NoGetMethod(record) => "'" + TypeName(record) + "' object has no attribute 'get'"
    case MissingStatus => KeyErrorText(MissingStatusMessage)
    case MissingName => KeyErrorText(MissingNameMessage)
    case UnhashableStatus(status) => "unhashable type: '" + TypeName(status) + "'"
    case UnknownStatus(_) => KeyErrorText(UnknownStatusMessage)
  }

  /** The errors `parse_status` can actually raise, given the checks that precede each one. */
  predicate Raisable(e: ParseError) {
    match e
    case NoGetMethod(record) => !record.JObj?
    case UnhashableStatus(status) => !Hashable(status)
    case UnknownStatus(status) => Hashable(status) && !(status.JStr? && status.s in HomeworkStatuses)
    case _ => true
  }

  /** Python values of the same type, which `type(v).__name__` cannot tell apart. */
  predicate SameType(a: Json, b: Json) {
    && a.JNull? == b.JNull? && a.JBool? == b.JBool? && a.JInt? == b.JInt?
    && a.JStr? == b.JStr? && a.JList? == b.JList? && a.JObj? == b.JObj?
  }

  /** Two failures that `str()` renders alike: same kind, and for a type error the same type. */
  predicate SameReport(e1: ParseError, e2: ParseError) {
    match (e1, e2)
    case (NoGetMethod(a), NoGetMethod(b)) => SameType(a, b)
    case (UnhashableStatus(a), UnhashableStatus(b)) => SameType(a, b)
    case (UnknownStatus(_), UnknownStatus(_)) => true
    case _ => e1 == e2
  }

  lemma TypeNameInjective(a: Json, b: Json)
    requires TypeName(a) == TypeName(b)
    ensures SameType(a, b)
  {
  }

  /**
   * Two formatting failures produce the same exception text exactly when
   * they are the same kind of failure on values of the same type: a change
   * between kinds is always reported anew, while a change from one unknown
   * status to another, or between two non-dict records of one type, is not.
   */
  lemma ParseErrorTextsAgree(e1: ParseError, e2: ParseError)
    requires Raisable(e1) && Raisable(e2)
    ensures ParseErrorText(e1) == ParseErrorText(e2) <==> SameReport(e1, e2)
  {
    assert |MissingStatusMessage| == 44 && |MissingNameMessage| == 51 && |UnknownStatusMessage| == 35;
    var r1, r2 := ParseErrorText(e1), ParseErrorText(e2);
    if r1 == r2 {
      if e1.NoGetMethod? && e2.NoGetMethod? {
        TypeNameInjective(e1.record, e2.record);
      } else if e1.UnhashableStatus? && e2.UnhashableStatus? {
        TypeNameInjective(e1.status, e2.status);
      }
    }
  }

  /** Appending records after the first never changes the outcome. */
  lemma DependsOnlyOnFirst(homeworks: seq<Json>, more: seq<Json>)
    requires |homeworks| > 0
    ensures ParseStatus(homeworks + more) == ParseStatus([homeworks[0]])
    ensures ParseStatus(homeworks) == ParseStatus([homeworks[0]])
  {
  }

  /**
   * A record with a recognised status and a string name yields the
   * templated sentence with the name embedded verbatim.
   */
  lemma RecognisedStatusMessage(homeworks: seq<Json>, status: string, name: string)
    requires |homeworks| > 0 && homeworks[0].JObj?
    requires StatusKey in homeworks[0].fields && homeworks[0].fields[StatusKey] == JStr(status)
    requires NameKey in homeworks[0].fields && homeworks[0].fields[NameKey] == JStr(name)
    requires status in HomeworkStatuses
    ensures ParseStatus(homeworks) ==
              Success("Изменился статус проверки работы \"" + name + "\". " + HomeworkStatuses[status])
  {
  }

  /** No verdict phrase ends with the last two characters of another one. */
  lemma VerdictEndingsDistinct(v1: string, v2: string)
    requires v1 in HomeworkStatuses.Values && v2 in HomeworkStatuses.Values
    requires |v1| >= 2 && |v2| >= 2
    requires v1[|v1| - 2..] == v2[|v2| - 2..]
    ensures v1 == v2
  {
  }

  /**
   * A status sentence determines both the homework name and the verdict:
   * every change of name or of status gives a different text, so the
   * duplicate filter downstream never hides a real status change.
   */
  lemma StatusMessageInjective(n1: string, v1: string, n2: string, v2: string)
    requires v1 in HomeworkStatuses.Values && v2 in HomeworkStatuses.Values
    requires StatusMessage(n1, v1) == StatusMessage(n2, v2)
    ensures n1 == n2 && v1 == v2
  {
    var m := StatusMessage(n1, v1);
    VerdictLengths(v1);
    VerdictLengths(v2);
    assert v1[|v1| - 2..] == m[|m| - 2..];
    assert v2[|v2| - 2..] == m[|m| - 2..];
    VerdictEndingsDistinct(v1, v2);
    assert |n1| == |n2|;
    assert n1 == m[|MessagePrefix|..|MessagePrefix| + |n1|];
  }

  /**
   * A sentence shows only the rendered name: an integer name and the string
   * of its digits give the same sentence, as in Python.
   */
  lemma NameRenderingCollides(status: string)
    requires status in HomeworkStatuses
    ensures ParseRecord(JObj(map[StatusKey := JStr(status), NameKey := JInt(5)])) ==
            ParseRecord(JObj(map[StatusKey := JStr(status), NameKey := JStr("5")]))
  {
  }

  lemma VerdictLengths(v: string)
    requires v in HomeworkStatuses.Values
    ensures |v| >= 2
  {
  }

  /** The three statuses have three distinct verdicts. */
  lemma VerdictsDistinct(s1: string, s2: string)
    requires s1 in HomeworkStatuses && s2 in HomeworkStatuses
    requires HomeworkStatuses[s1] == HomeworkStatuses[s2]
    ensures s1 == s2
  {
  }

  /** Every answer `parse_status` can give starts with one of two fixed openings, so it is never empty. */
  lemma AnswerShape(homeworks: seq<Json>)
    requires ParseStatus(homeworks).Success?
    ensures var a := ParseStatus(homeworks).value;
            a == NoWorksMessage || (|a| >= |MessagePrefix| && a[..|MessagePrefix|] == MessagePrefix)
  {
  }
}
