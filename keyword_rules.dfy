/**
 * What the keyword stores of the jpm and jpmai plugins have in common: the
 * default cooldown, the validation `add_keyword` runs before it touches the
 * store, and the errors the store operations report.
 */
module KeywordRules {
  import opened Wrappers
  import opened PyStr

  /** `DEFAULT_RATE_LIMIT`: one hour, in seconds. */
  const DefaultRateLimit: int := 3600

  /** The error replies of the store operations, in place of their message strings. */
  datatype ConfigError =
    | EmptyKeyword        // "关键词不能为空"
    | NegativeRateLimit   // "频率限制必须大于等于0"
    | UnknownKeyword      // "关键词 `…` 不存在"

  /** The outcome of a management command that is open only to the owner (or to anyone
      while no owner is set). */
  datatype CommandResult<T> = Denied | Done(value: T)

  /** The checks at the head of `add_keyword`: the keyword must not be empty or
      whitespace, then the rate limit must not be negative. None means both pass. */
  function ValidateKeyword(keyword: string, rateLimit: int): (e: Option<ConfigError>)
    ensures e.None? <==> !IsBlank(keyword) && rateLimit >= 0
    ensures IsBlank(keyword) ==> e == Some(EmptyKeyword)
    ensures !IsBlank(keyword) && rateLimit < 0 ==> e == Some(NegativeRateLimit)
    ensures e != Some(UnknownKeyword)
  {
    if IsBlank(keyword) then Some(EmptyKeyword)
    else if rateLimit < 0 then Some(NegativeRateLimit)
    else None
  }

  /** A keyword that `/keyword` can name (one token) passes validation with any
      non-negative limit, and whitespace alone never does. */
  lemma TokenKeywordsValid(keyword: string, rateLimit: int)
    requires IsToken(keyword) && rateLimit >= 0
    ensures ValidateKeyword(keyword, rateLimit).None?
    ensures ValidateKeyword(" ", rateLimit) == Some(EmptyKeyword)
  {
    assert !IsSpace(keyword[0]);
    assert !AllSpace(keyword);
    assert AllSpace(" ");
  }
}
