/**
 * The jpm plugin's configuration store (`JPMConfigManager`) and the parts of its
 * command handlers and trigger listener that decide something: the owner check,
 * the delete command, and which reply a `/keyword` message gets. Saving to the
 * JSON file is left out; every store update below is what `save` would write.
 */
module JpmConfig {
  import opened Wrappers
  import opened KeywordRules
  import opened TriggerLog
  import opened TriggerText
  import opened Templates
  import JpmTemplates

  /** One keyword's settings: `{target_user_id, target_chat_id, rate_limit_seconds}`. */
  datatype KeywordConfig = KeywordConfig(targetUserId: int, targetChatId: int, rateLimitSeconds: int)

  class JPMConfigManager {
    /** The global switch. */
    var enabled: bool
    /** The owner's user id, if one has been set. */
    var ownerId: Option<int>
    /** keyword -> its settings. */
    var keywords: map<string, KeywordConfig>

    /** The state before any file is read: off, no owner, no keywords. */
    constructor()
      ensures !enabled && ownerId.None? && keywords == map[]
    {
      enabled := false;
      ownerId := None;
      keywords := map[];
    }

    /** `add_keyword`: a blank keyword or a negative limit is refused and nothing changes;
        otherwise the keyword's entry becomes exactly the three given settings (a new
        entry or an overwrite) and no other keyword is touched. */
    method AddKeyword(keyword: string, targetUserId: int, targetChatId: int, rateLimit: int)
      returns (err: Option<ConfigError>)
      modifies this
      ensures err == ValidateKeyword(keyword, rateLimit)
      ensures err.Some? ==> keywords == old(keywords)
      ensures err.None? ==> keywords == old(keywords)[keyword := KeywordConfig(targetUserId, targetChatId, rateLimit)]
      ensures enabled == old(enabled) && ownerId == old(ownerId)
    {
      err := ValidateKeyword(keyword, rateLimit);
      if err.None? {
        keywords := keywords[keyword := KeywordConfig(targetUserId, targetChatId, rateLimit)];
      }
    }

    /** `delete_keyword`: reports whether the keyword was there, and removes it and
        nothing else. */
    method DeleteKeyword(keyword: string) returns (deleted: bool)
      modifies this
      ensures deleted <==> keyword in old(keywords)
      ensures keywords == old(keywords) - {keyword}
      ensures enabled == old(enabled) && ownerId == old(ownerId)
    {
      deleted := keyword in keywords;
      if deleted {
        keywords := keywords - {keyword};
      }
    }

    /** `get_keyword_config`: the keyword's settings, or None when it is not configured. */
    function GetKeywordConfig(keyword: string): (c: Option<KeywordConfig>)
      reads this
      ensures c.Some? <==> keyword in keywords
      ensures c.Some? ==> c.value == keywords[keyword]
    {
      if keyword in keywords then Some(keywords[keyword]) else None
    }

    /** The rate limit `can_trigger` reads for a keyword: its `rate_limit_seconds` when
        the keyword is configured. */
    function RateLimit(keyword: string): (r: Option<int>)
      reads this
      ensures r.Some? <==> keyword in keywords
      ensures r.Some? ==> r.value == keywords[keyword].rateLimitSeconds
    {
      if keyword in keywords then Some(keywords[keyword].rateLimitSeconds) else None
    }

    /** `enable_feature` / `disable_feature`: the switch is set only for a sender who
        passes `check_permission`. */
    method SetEnabled(senderId: int, on: bool) returns (allowed: bool)
      modifies this
      ensures allowed == CheckPermission(old(ownerId), senderId)
      ensures enabled == (if allowed then on else old(enabled))
      ensures ownerId == old(ownerId) && keywords == old(keywords)
    {
      allowed := CheckPermission(ownerId, senderId);
      if allowed {
        enabled := on;
      }
    }

    /** `set_owner`: while no owner is set anyone may set one; afterwards only the owner
        may change it. */
    method SetOwner(senderId: int, newOwner: int) returns (allowed: bool)
      modifies this
      ensures allowed == CheckPermission(old(ownerId), senderId)
      ensures ownerId == (if allowed then Some(newOwner) else old(ownerId))
      ensures enabled == old(enabled) && keywords == old(keywords)
    {
      allowed := CheckPermission(ownerId, senderId);
      if allowed {
        ownerId := Some(newOwner);
      }
    }
  }

  /** `,jpm delete <keyword>`: refused without permission; otherwise the keyword is
      deleted and, only when it existed, its trigger record is cleared too. No other
      keyword's settings or record change. */
  method DeleteCommand(cfg: JPMConfigManager, log: TriggerLogManager, senderId: int, keyword: string)
    returns (r: CommandResult<bool>)
    modifies cfg, log
    ensures r == Denied <==> !CheckPermission(old(cfg.ownerId), senderId)
    ensures r == Denied ==> cfg.keywords == old(cfg.keywords) && log.logs == old(log.logs)
    ensures r.Done? ==> (r.value <==> keyword in old(cfg.keywords))
    ensures r.Done? ==> cfg.keywords == old(cfg.keywords) - {keyword}
    ensures r.Done? ==> log.logs == if r.value then old(log.logs) - {keyword} else old(log.logs)
    ensures cfg.enabled == old(cfg.enabled) && cfg.ownerId == old(cfg.ownerId)
  {
    if !CheckPermission(cfg.ownerId, senderId) {
      return Denied;
    }
    var deleted := cfg.DeleteKeyword(keyword);
    if deleted {
      log.ClearKeyword(keyword);
    }
    r := Done(deleted);
  }

  /** What `trigger_jpm` does with a message, up to the network calls. In order: only a
      parsed `/keyword` that is configured, sent in the keyword's chat, while the plugin
      is on, by a sender with a non-zero id is considered; then the cooldown decides;
      then the reply mode. */
  function PlanTrigger(cfg: JPMConfigManager, log: TriggerLogManager, msg: Message, now: int): (p: Plan)
    reads cfg, log
    ensures ParseTrigger(msg.text).None? ==> p == Ignore
    ensures p != Ignore ==>
              var t := ParseTrigger(msg.text).value;
              && t.keyword in cfg.keywords
              && msg.chatId == cfg.keywords[t.keyword].targetChatId
              && cfg.enabled
              && msg.from.Some? && msg.from.value.id != 0
    ensures (ParseTrigger(msg.text).Some?
             && var t := ParseTrigger(msg.text).value;
             && t.keyword in cfg.keywords
             && msg.chatId == cfg.keywords[t.keyword].targetChatId
             && cfg.enabled
             && msg.from.Some? && msg.from.value.id != 0) ==> p != Ignore
    ensures p.Throttled? ==> p.wait > 0 && !IsOwner(cfg.ownerId, msg.from.value.id)
    ensures p.Respond? ==> p.keyword == ParseTrigger(msg.text).value.keyword
                           && p.mode == ChooseMode(ParseTrigger(msg.text).value, msg.replyTo)
    ensures p != Ignore && IsOwner(cfg.ownerId, msg.from.value.id) ==> p.Respond?
  {
    match ParseTrigger(msg.text)
    case None => Ignore
    case Some(t) =>
      if t.keyword !in cfg.keywords then Ignore
      else if msg.chatId != cfg.keywords[t.keyword].targetChatId then Ignore
      else if !cfg.enabled then Ignore
      else if msg.from.None? || msg.from.value.id == 0 then Ignore
      else
        var d := log.CanTrigger(t.keyword, IsOwner(cfg.ownerId, msg.from.value.id), cfg.RateLimit(t.keyword), now);
        if !d.allowed then Throttled(d.wait.value)
        else Respond(t.keyword, ChooseMode(t, msg.replyTo))
  }

  /** `trigger_jpm` end to end. `found` says whether the target user's last message was
      found and the reply to it went through (both network calls); `singleChoice` and
      `dualChoice` are the random picks in the single and in the dual pool, each bounded
      only by its own pool. A reply is produced and the keyword's trigger time recorded
      exactly when the plan is to respond and the target was found; otherwise nothing
      changes. */
  method TriggerJpm(cfg: JPMConfigManager, log: TriggerLogManager, gen: Generator,
                    msg: Message, now: int, found: bool, singleChoice: nat, dualChoice: nat)
    returns (reply: Option<string>)
    requires gen.singles != [] ==> singleChoice < |gen.singles|
    requires gen.duals != [] ==> dualChoice < |gen.duals|
    modifies log
    ensures var p := old(PlanTrigger(cfg, log, msg, now));
            && (reply.Some? <==> p.Respond? && found)
            && (reply.Some? ==> reply.value == match p.mode
                                               case Single(n) => GenerateSingle(gen, n, singleChoice)
                                               case Dual(n, s) => JpmTemplates.GenerateDual(gen, n, s, dualChoice))
            && log.logs == if reply.Some? then old(log.logs)[p.keyword := now] else old(log.logs)
  {
    var p := PlanTrigger(cfg, log, msg, now);
    if p.Respond? && found {
      var text := match p.mode
                  case Single(n) => GenerateSingle(gen, n, singleChoice)
                  case Dual(n, s) => JpmTemplates.GenerateDual(gen, n, s, dualChoice);
      log.RecordTrigger(p.keyword, now);
      reply := Some(text);
    } else {
      reply := None;
    }
  }

  /** The cooldown a reply starts. `recorded` is the time on record for the message's
      keyword (after `TriggerJpm` answers at `now`, it is `now`). From then on a non-owner's
      `/keyword` that passes the other checks is throttled exactly while `later` is before
      `recorded + rate_limit_seconds`, and answered again from then on. */
  lemma CooldownAfterReply(cfg: JPMConfigManager, log: TriggerLogManager, msg: Message, recorded: int, later: int)
    requires PlanTrigger(cfg, log, msg, later) != Ignore
    requires ParseTrigger(msg.text).value.keyword in log.logs
    requires log.logs[ParseTrigger(msg.text).value.keyword] == recorded
    requires !IsOwner(cfg.ownerId, msg.from.value.id)
    ensures var k := ParseTrigger(msg.text).value.keyword;
            && (PlanTrigger(cfg, log, msg, later).Throttled? <==> later < recorded + cfg.keywords[k].rateLimitSeconds)
            && (PlanTrigger(cfg, log, msg, later).Throttled? ==>
                  PlanTrigger(cfg, log, msg, later).wait == recorded + cfg.keywords[k].rateLimitSeconds - later)
  {
  }
}
