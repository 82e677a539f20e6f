/** `check_tokens`: the start-up gate on the three environment variables. */
module Config {
  import opened Wrappers

  /** The three variables the bot reads from its environment. */
  datatype Token = PracticumToken | TelegramToken | TelegramChatId

  /**
   * The variable at which `check_tokens` stops, examining them in source
   * order; None when all three are set. Only absence counts: an empty
   * string is a present value.
   */
  function FirstMissing(practicum: Option<string>, telegram: Option<string>, chatId: Option<string>): (r: Option<Token>)
    ensures r == Some(PracticumToken) <==> practicum.None?
    ensures r == Some(TelegramToken) <==> practicum.Some? && telegram.None?
    ensures r == Some(TelegramChatId) <==> practicum.Some? && telegram.Some? && chatId.None?
  {
    if practicum.None? then Some(PracticumToken)
    else if telegram.None? then Some(TelegramToken)
    else if chatId.None? then Some(TelegramChatId)
    else None
  }

  /** `check_tokens()`: true iff none of the three variables is missing. */
  function CheckTokens(practicum: Option<string>, telegram: Option<string>, chatId: Option<string>): (ok: bool)
    ensures ok <==> practicum.Some? && telegram.Some? && chatId.Some?
  {
    FirstMissing(practicum, telegram, chatId).None?
  }

  /** Empty values pass the gate; only an unset variable fails it. */
  lemma EmptyTokensAccepted()
    ensures CheckTokens(Some(""), Some(""), Some(""))
  {
  }

  /** The prefix of the critical line `check_tokens` logs before returning false. */
  const MissingVariablePrefix := "Отсутствует переменная окружения: "

  /** The environment name of each variable. */
  function VariableName(t: Token): string {
    match t
    case PracticumToken => "PRACTICUM_TOKEN"
    case TelegramToken => "TELEGRAM_TOKEN"
    case TelegramChatId => "TELEGRAM_CHAT_ID"
  }

  /**
   * The critical line as written: it formats the missing variable's value,
   * which is None at that point, so the line reads the same whichever
   * variable is missing.
   */
  function MissingVariableLogAsWritten(practicum: Option<string>, telegram: Option<string>, chatId: Option<string>): (r: Option<string>)
    ensures r.Some? <==> !CheckTokens(practicum, telegram, chatId)
    ensures r.Some? ==> |r.value| > |MissingVariablePrefix| && r.value[..|MissingVariablePrefix|] == MissingVariablePrefix
  {
    match FirstMissing(practicum, telegram, chatId)
    case None => None
    case Some(_) => Some(MissingVariablePrefix + "None")
  }

  /** A missing API token and a missing chat id produce the same critical line. */
  lemma AsWrittenLogHidesVariable()
    ensures FirstMissing(None, Some("t"), Some("1")) != FirstMissing(Some("p"), Some("t"), None)
    ensures MissingVariableLogAsWritten(None, Some("t"), Some("1")) ==
              MissingVariableLogAsWritten(Some("p"), Some("t"), None)
  {
  }

  /** The critical line as evidently intended: it names the missing variable. */
  function MissingVariableLog(practicum: Option<string>, telegram: Option<string>, chatId: Option<string>): (r: Option<string>)
    ensures r.Some? <==> !CheckTokens(practicum, telegram, chatId)
    ensures r.Some? ==> |r.value| > |MissingVariablePrefix| && r.value[..|MissingVariablePrefix|] == MissingVariablePrefix
  {
    match FirstMissing(practicum, telegram, chatId)
    case None => None
    case Some(t) => Some(MissingVariablePrefix + VariableName(t))
  }

  /** The intended line identifies the variable at which `check_tokens` stopped. */
  lemma MissingVariableLogIdentifies(p1: Option<string>, t1: Option<string>, c1: Option<string>,
                                     p2: Option<string>, t2: Option<string>, c2: Option<string>)
    requires MissingVariableLog(p1, t1, c1).Some?
    requires MissingVariableLog(p1, t1, c1) == MissingVariableLog(p2, t2, c2)
    ensures FirstMissing(p1, t1, c1) == FirstMissing(p2, t2, c2)
  {
  }
}
