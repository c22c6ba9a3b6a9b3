/**
 * The per-keyword cooldown log (`TriggerLogManager`) of the jpm and jpmai plugins; the
 * two files carry the same class line for line. Time is whole seconds passed in by
 * the caller, and the keyword's configured rate limit is passed in as well (the
 * source reads it from the plugin's global configuration object).
 */
module TriggerLog {
  import opened Wrappers

  /** The answer of `can_trigger`: may the keyword fire now, and if not, how many seconds remain. */
  datatype Decision = Decision(allowed: bool, wait: Option<int>)

  class TriggerLogManager {
    /** keyword -> time of its last successful trigger. */
    var logs: map<string, int>

    constructor()
      ensures logs == map[]
    {
      logs := map[];
    }

    /** `can_trigger(keyword, is_owner)`. `rateLimit` is the keyword's `rate_limit_seconds`
        when the keyword is configured, and None otherwise. The owner is never limited;
        anyone else is refused exactly while a trigger is on record and fewer than
        `rateLimit` seconds have passed since it, and is then told the seconds remaining. */
    function CanTrigger(keyword: string, isOwner: bool, rateLimit: Option<int>, now: int): (d: Decision)
      reads this
      ensures d.allowed <==> (isOwner || keyword !in logs || rateLimit.None? || now - logs[keyword] >= rateLimit.value)
      ensures d.allowed <==> d.wait.None?
      ensures d.wait.Some? ==> d.wait.value > 0 && d.wait.value == logs[keyword] + rateLimit.value - now
    {
      if isOwner then
        Decision(true, None)
      else if keyword in logs && rateLimit.Some? then
        var elapsed := now - logs[keyword];
        if elapsed < rateLimit.value then Decision(false, Some(rateLimit.value - elapsed))
        else Decision(true, None)
      else
        Decision(true, None)
    }

    /** `record_trigger(keyword)`: that keyword's time becomes `now`; every other entry stays. */
    method RecordTrigger(keyword: string, now: int)
      modifies this
      ensures logs == old(logs)[keyword := now]
    {
      logs := logs[keyword := now];
    }

    /** `clear_keyword(keyword)`: that keyword's entry, if any, is removed; every other entry stays. */
    method ClearKeyword(keyword: string)
      modifies this
      ensures logs == old(logs) - {keyword}
    {
      if keyword in logs {
        logs := logs - {keyword};
      }
    }
  }

  /** Right after a trigger recorded at `recorded`, a non-owner is refused until
      `recorded + rate` and allowed from then on; the cooldown of one keyword says
      nothing about another keyword that has no record. */
  lemma CooldownWindow(t: TriggerLogManager, keyword: string, other: string, rate: int, recorded: int, now: int)
    requires keyword in t.logs && t.logs[keyword] == recorded
    requires other != keyword && other !in t.logs
    ensures t.CanTrigger(keyword, false, Some(rate), now).allowed <==> now >= recorded + rate
    ensures t.CanTrigger(other, false, Some(rate), now).allowed
  {
  }
}
