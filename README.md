# Keyword reply, AI reply and auto-reaction plugins, modelled in Dafny

This project models the decision-making core of four plugins of a Telegram user-bot:

- **jpm** (`plugins/jpm.py`): an owner configures keywords. A message `/keyword [param]` in
  the keyword's chat makes the bot answer the keyword's target user with a line drawn
  from a fixed template table. The reply is "single" (one name) or "dual" (the keyword
  and a second name, taken from the parameter or from the replied-to user). Every
  keyword has its own cooldown, and the owner is never throttled.
- **jpmai** (`jpmai/main.py`): the same idea. The text comes from an OpenAI-style API
  whose answer is cleaned by `_extract_content`. Each keyword also has an on/off switch
  and an "anchor" message that the reply goes to; a listener keeps the anchor at the
  target's latest group message. Management happens through `,jpmai <subcommand>`.
- **catchup** (`plugins/catchup.py`): only its template generator (a smaller table with
  different placeholders).
- **cai** (`cai/main.py`): keeps a list of (user, chat) targets, each with its own
  cooldown, and reacts to a target's messages with configured emojis.

The modules are:

| module | file | what it holds |
|---|---|---|
| `Wrappers` | wrappers.dfy | `Option` |
| `PyStr` | pystr.dfy | the Python string operations used: `strip`, `split()`, `split('\n')`, `in`, `endswith`, `replace`, `lower` (ASCII), `isdigit` (ASCII), `str(int)` |
| `KeywordRules` | keyword_rules.dfy | the validation shared by both `add_keyword`s, the error replies, the owner-only command outcome |
| `TriggerLog` | trigger_log.dfy | `TriggerLogManager`, identical in jpm and jpmai: a class over the map keyword → last trigger time |
| `TriggerText` | trigger_text.dfy | `/keyword [param]` parsing, single/dual mode choice, `check_permission` and the listeners' `is_owner` |
| `Templates` | templates.dfy | the template generator shared by jpm and catchup: the load loop, `generate_single`, and a theory of placeholder filling |
| `JpmTemplates`, `CatchupTemplates` | jpm_templates.dfy, catchup_templates.dfy | each plugin's template table and its `generate_dual` |
| `JpmConfig` | jpm_config.dfy | `JPMConfigManager` as a class, the delete command, and `trigger_jpm` |
| `JpmaiExtract` | jpmai_extract.dfy | `_extract_content` |
| `JpmaiConfig` | jpmai_config.dfy | `AIGenerator.__init__`, `JPMAIConfigManager` as a class (keywords plus their insertion order), the management commands, `track_anchor_messages` and `trigger_jpmai` |
| `JpmaiCommand` | jpmai_command.dfy | the dispatch rule of `,jpmai` |
| `Cai` | cai.dfy | `CAIConfig` as a class over its target list, `get_reactions`, the `set` command and `auto_react_handler` |

Modelling choices:

- The clock, the random template pick and every network result are passed in as
  parameters: `now` as whole seconds, `choice` as an index into the pool, and
  `found` / `fetch` / `recentFound` / `delivered` for the Telegram look-ups and sends.
- Objects whose fields the source updates in place are classes with `modifies` clauses:
  the two config managers, the trigger log and `CAIConfig`. Every method states the
  complete new state.
- Python dict order matters where jpmai looks for "the first keyword" that targets a
  user. `JPMAIConfigManager` therefore keeps `order`, the insertion order, beside the
  map, and its `Valid()` invariant ties the two together.
- `_extract_content` returns a lone paragraph before the 400-character cut is reached,
  so `JpmaiExtract.Choose` bounds the result only from two paragraphs on.
- The random template pick is two parameters in `TriggerJpm`, one per pool, each below
  the size of its own pool.

## Model

| member | source | states |
|---|---|---|
| PyStr.Strip | jpmai/main.py:202 | `str.strip()`: empty iff the text is all whitespace; otherwise no whitespace at either end; text without surrounding whitespace is unchanged |
| PyStr.RStripChar | jpmai/main.py:73 | `rstrip('/')`: a prefix of the input, only '/' cut, never ending in '/' |
| PyStr.SplitEmpty | jpmai/main.py:930-931 | `split()` gives no words iff the text is all whitespace |
| PyStr.SplitTokens | jpmai/main.py:512 | `str.split()` yields non-empty tokens without whitespace |
| PyStr.SplitToken | plugins/jpm.py:472 | `split()` of a single token is that token alone |
| PyStr.SplitCons | plugins/jpm.py:472 | `split()` of `a + " " + rest`, for a token a, is a followed by the words of rest |
| PyStr.SplitTwo | jpmai/main.py:930 | `split()` of `a + " " + b`, for two tokens, gives exactly `[a, b]` |
| PyStr.Split | jpmai/main.py:512 | `str.split()`: the maximal runs of non-whitespace characters, in order |
| PyStr.SplitOn | jpmai/main.py:202 | `split("\n")`: at least one piece, and no piece contains the separator |
| PyStr.Contains | jpmai/main.py:215 | the substring test `sub in s` |
| PyStr.EndsWith | jpmai/main.py:220 | `s.endswith(suffix)` |
| PyStr.EndsWithContains | jpmai/main.py:219-220 | a text ending in a suffix contains it, so the `endswith` tests add nothing to the `in` tests |
| PyStr.Lower | jpmai/main.py:508 | `str.lower()` on ASCII letters, other characters unchanged |
| PyStr.LowerAppend | jpmai/main.py:512 | lower-casing distributes over concatenation |
| PyStr.LowerKeepsSpace | jpmai/main.py:508 | lower-casing keeps a text all whitespace exactly when it was |
| PyStr.IsDigits | cai/main.py:269 | `str.isdigit()` on ASCII digits: non-empty and every character a digit |
| PyStr.Replace | plugins/jpm.py:112 | `str.replace`: text without the pattern comes back unchanged, and replacing a pattern by itself changes nothing |
| PyStr.IntToStr | plugins/jpm.py:532 | `str(id)` is never empty, and is all digits exactly for a number of 0 or more |
| KeywordRules.ValidateKeyword | jpmai/main.py:340-343 | the keyword is accepted iff it is not blank and the limit is not negative; the blank check comes first; the result is never "unknown keyword" |
| KeywordRules.TokenKeywordsValid | plugins/jpm.py:167-171 | every keyword `/keyword` can name passes validation with any limit of 0 or more, and a whitespace keyword is refused |
| TriggerLog.TriggerLogManager.constructor | jpmai/main.py:426-428 | a new log holds no trigger times (plugins/jpm.py:205-207) |
| TriggerLog.TriggerLogManager.CanTrigger | jpmai/main.py:451-470 | owner always allowed; a non-owner is allowed iff no record, no limit, or elapsed ≥ limit; when refused, wait = record + limit − now > 0 (same code at plugins/jpm.py:231-251) |
| TriggerLog.TriggerLogManager.RecordTrigger | jpmai/main.py:472-475 | the keyword's time becomes `now` and every other entry stays (plugins/jpm.py:253-256) |
| TriggerLog.TriggerLogManager.ClearKeyword | jpmai/main.py:477-481 | exactly that keyword's entry is removed (plugins/jpm.py:258-261) |
| TriggerLog.CooldownWindow | plugins/jpm.py:231-251 | right after a trigger at `recorded`, a non-owner may trigger iff `now ≥ recorded + rate`, and a keyword without a record is free |
| TriggerText.ParseTrigger | jpmai/main.py:926-935 | a trigger is parsed iff the text starts with "/" and something non-blank follows; keyword and parameter are single tokens (plugins/jpm.py:468-477) |
| TriggerText.ParseKeywordOnly | plugins/jpm.py:472-474 | `"/" + keyword` parses back to that keyword with no parameter |
| TriggerText.ParseKeywordParam | plugins/jpm.py:472-474 | `"/" + keyword + " " + param` parses back to exactly that keyword and that parameter |
| TriggerText.DisplayName | plugins/jpm.py:532 | `username or first_name or str(id)`: never empty, the username when it is non-empty, always one of the three |
| TriggerText.ChooseMode | plugins/jpm.py:510-548 | dual only when the message is a reply or has a parameter; the parameter wins; otherwise the replied-to user's name; single when the replied-to sender is hidden (jpmai/main.py:984-1020) |
| TriggerText.TextToMode | jpmai/main.py:984-986 | `/keyword param` answers in dual mode with the parameter as second name; a bare `/keyword` that is not a reply answers in single mode |
| TriggerText.CheckPermission | plugins/jpm.py:303-313 | anyone while no owner is set, afterwards only the owner (jpmai/main.py:547-551) |
| TriggerText.IsOwner | plugins/jpm.py:499 | owner only when an owner is set and non-zero and equals the sender |
| TriggerText.OwnerTests | jpmai/main.py:969-973 | `is_owner` implies `check_permission`; with no owner set anyone passes the permission check, yet nobody is owner |
| Templates.Pools | plugins/jpm.py:98-104 | the two pools together hold every table row |
| Templates.LoadTemplates | plugins/catchup.py:69-75 | the append loop builds exactly the pools of `Pools` (same loop at plugins/jpm.py:98-104) |
| Templates.PoolsAppend | plugins/jpm.py:98-104 | loading two tables one after the other gives each table's pools, concatenated |
| Templates.PoolsAllSingle | plugins/jpm.py:101-102 | rows that are all "single" go, in order, to the single pool and none to the dual pool |
| Templates.PoolsAllDual | plugins/jpm.py:103-104 | rows that are all non-single go, in order, to the dual pool |
| Templates.SingleFallback | plugins/jpm.py:110 | the reply `"<name> 收到了消息"` of an empty single pool (plugins/catchup.py:81) |
| Templates.GenerateSingle | plugins/jpm.py:107-112 | the fallback `"{name} 收到了消息"` exactly when the pool is empty; a template without placeholders comes back unchanged (plugins/catchup.py:78-83) |
| Templates.NoBraceNoPlaceholder | plugins/jpm.py:112 | text without '{' contains no placeholder |
| Templates.ReplaceSkip | plugins/jpm.py:112 | replacement passes over leading text without '{' |
| Templates.FillOne | plugins/jpm.py:112 | filling `a + {key} + b` gives `a + value + b` |
| Templates.FillFront | plugins/jpm.py:112 | filling `{key} + b` gives `value + b` |
| Templates.FillBack | plugins/jpm.py:112 | filling `a + {key}` gives `a + value` |
| Templates.ReplaceSkipHead | plugins/jpm.py:112 | text that starts no placeholder is passed over by replacement |
| Templates.ReplaceNoBrace | plugins/jpm.py:112 | text without '{' is unchanged by any placeholder replacement |
| Templates.Fill | plugins/jpm.py:112 | filling turns exactly the holes with that key into the value and keeps every other piece |
| Templates.ApartNotPrefix | plugins/jpm.py:112 | two placeholders that differ somewhere cannot match at the same place |
| Templates.FillRender | plugins/jpm.py:112 | `replace(key, v)` on a rendered template fills exactly the `key` holes and leaves the literal text alone |
| Templates.FillWellFormed | plugins/jpm.py:112 | filling a hole with text without '{' keeps the template well formed |
| Templates.FillTwice | plugins/jpm.py:112 | the two chained replacements fill both sets of holes |
| Templates.FillFirstLeading | plugins/catchup.py:90 | `{a}…{b}…` filled a then b puts each value in its own place |
| Templates.FillSecondLeading | plugins/catchup.py:90 | `{b}…{a}…` filled a then b puts each value in its own place |
| Templates.FillFirstLeadingEnd | plugins/catchup.py:90 | the same for a template that ends in its second placeholder |
| Templates.RenderNoBrace | plugins/jpm.py:112 | literal pieces without '{' render to text without '{' |
| Templates.GenerateSingleFills | plugins/jpm.py:107-112 | for a name without '{', a single template whose only placeholder is `{name}` comes back with the name in every `{name}` and its literal text unchanged |
| Templates.FirstPass | plugins/jpm.py:119 | the first of the two chained replacements puts its value into its hole as it is, whatever the value holds |
| Templates.SecondPass | plugins/jpm.py:119 | the second replacement fills its own holes and also any copy of its placeholder that the first value carried in |
| Templates.NameRewritten | plugins/jpm.py:112 | a name `<a>{target_user}` is not kept as given: template `{name}` becomes `<a>` followed by the whole name again (same code at plugins/catchup.py:83) |
| JpmTemplates.TablePools | plugins/jpm.py:41-88 | the table splits into the 21 single texts and the 20 dual texts, in table order |
| JpmTemplates.NewGenerator | plugins/jpm.py:93-104 | a new generator holds exactly those 21 single and 20 dual templates |
| JpmTemplates.DualFallback | plugins/jpm.py:117 | the reply `"<keyword> 和 <target> 的故事"` of an empty dual pool |
| JpmTemplates.GenerateDual | plugins/jpm.py:114-119 | the fallback `"<keyword> 和 <target> 的故事"` exactly when the dual pool is empty; a template without placeholders comes back unchanged |
| JpmTemplates.DualPlaceholders | plugins/jpm.py:119 | `{name}` and `{target}` cannot be mistaken for each other |
| JpmTemplates.DualFills | plugins/jpm.py:114-119 | for a keyword without '{', a dual template comes back with the keyword in every `{name}` and the second name in every `{target}`, literal text unchanged |
| JpmTemplates.KeywordRewritten | plugins/jpm.py:119 | a keyword `<a>{target}` is not kept as typed: `{name}<mid>{target}` becomes `<a>` + target + `<mid>` + target |
| CatchupTemplates.TablePools | plugins/catchup.py:43-59 | the table splits into the five single and five dual texts, in order |
| CatchupTemplates.NewGenerator | plugins/catchup.py:64-75 | a new generator holds exactly 5 single and 5 dual templates |
| CatchupTemplates.DualFallback | plugins/catchup.py:88 | the reply `"<trigger> 向 <target> 发送了消息"` of an empty dual pool |
| CatchupTemplates.GenerateDual | plugins/catchup.py:85-90 | the fallback `"<trigger> 向 <target> 发送了消息"` exactly when the pool is empty; a template without placeholders comes back unchanged |
| CatchupTemplates.SingleReplies | plugins/catchup.py:78-83 | for a name without '{', each of the five single replies is its template with the name in place and nothing else changed |
| CatchupTemplates.DualPlaceholders | plugins/catchup.py:90 | `{trigger_user}` and `{target_user}` cannot be mistaken for each other |
| CatchupTemplates.DualReplies | plugins/catchup.py:85-90 | for a sender name without '{', each of the five dual replies names the sender and the target in their places |
| CatchupTemplates.SenderRewritten | plugins/catchup.py:90 | a sender `<a>{target_user}` is not kept as given: `{trigger_user}<mid>{target_user}` becomes `<a>` + target + `<mid>` + target |
| JpmConfig.JPMConfigManager.constructor | plugins/jpm.py:125-129 | starts switched off, with no owner and no keywords |
| JpmConfig.JPMConfigManager.AddKeyword | plugins/jpm.py:165-179 | invalid input changes nothing; otherwise the entry becomes exactly the three settings, other keys untouched |
| JpmConfig.JPMConfigManager.DeleteKeyword | plugins/jpm.py:181-187 | reports whether the key existed and removes that key only |
| JpmConfig.JPMConfigManager.GetKeywordConfig | plugins/jpm.py:189-191 | the entry iff the keyword is configured |
| JpmConfig.JPMConfigManager.RateLimit | plugins/jpm.py:243-247 | the keyword's `rate_limit_seconds` iff configured |
| JpmConfig.JPMConfigManager.SetEnabled | plugins/jpm.py:337-361 | the switch changes only for a permitted sender |
| JpmConfig.JPMConfigManager.SetOwner | plugins/jpm.py:410-430 | the owner changes only for a permitted sender |
| JpmConfig.DeleteCommand | plugins/jpm.py:386-403 | refused exactly without permission; otherwise deletes the key and clears its trigger record only if it existed |
| JpmConfig.PlanTrigger | plugins/jpm.py:463-513 | a message is acted on iff it parses, is configured, is in the keyword's chat, the plugin is on and the sender id is non-zero; throttling never hits the owner; the mode is `ChooseMode` |
| JpmConfig.TriggerJpm | plugins/jpm.py:515-557 | a reply is produced and recorded iff the plan is to respond and the target was found; the reply is the generator's text for the chosen mode, the single pick ranging over the whole single pool and the dual pick over the whole dual pool |
| JpmConfig.CooldownAfterReply | plugins/jpm.py:231-256 | with `recorded` on record for the keyword (`now` after `TriggerJpm` answered at `now`), a non-owner's message that passes the other checks is throttled iff `later < recorded + rate_limit_seconds`, and is then told the seconds remaining |
| JpmaiExtract.NonBlank | jpmai/main.py:202 | the kept lines are non-empty and no more than the input lines |
| JpmaiExtract.NonBlankSnoc | jpmai/main.py:202 | line by line, each line whose strip is non-empty adds that stripped text at the end, in order, and a blank line adds nothing |
| JpmaiExtract.NonBlankNone | jpmai/main.py:202-205 | no paragraphs are left exactly when every line is all whitespace |
| JpmaiExtract.LinesBlank | jpmai/main.py:202 | text is all whitespace exactly when each of its `split("\n")` lines is |
| JpmaiExtract.ExtractNoneIffBlank | jpmai/main.py:202-205 | `_extract_content` returns None exactly when the raw answer is all whitespace |
| JpmaiExtract.Paragraphs | jpmai/main.py:202 | the stripped non-blank lines of the answer, in order |
| JpmaiExtract.IsReasoning | jpmai/main.py:215 | a line containing any of the 22 filter keywords |
| JpmaiExtract.IsTitle | jpmai/main.py:219-222 | a line under 30 characters that contains or ends in a full-width or ASCII colon |
| JpmaiExtract.Kept | jpmai/main.py:211-224 | the lines that reach `filtered_paragraphs.append` |
| JpmaiExtract.Extract | jpmai/main.py:173-237 | `_extract_content` of the raw answer |
| JpmaiExtract.Filter | jpmai/main.py:212-224 | the filter never adds lines |
| JpmaiExtract.FilterKeeps | jpmai/main.py:209-229 | a line survives iff it is in the input and neither reasoning nor a short heading |
| JpmaiExtract.LongestAt | jpmai/main.py:231 | `max(key=len)`: a longest line, the first of the longest |
| JpmaiExtract.Truncate | jpmai/main.py:234-235 | never over 400; unchanged up to 400; longer lines become their first 350 characters followed by exactly "..." |
| JpmaiExtract.Choose | jpmai/main.py:200-237 | None iff no paragraphs; one paragraph comes back as it is; from two on, at most 400 characters |
| JpmaiExtract.ExtractContent | jpmai/main.py:173-237 | the filtering loop computes `Choose` of the answer's paragraphs |
| JpmaiExtract.ChooseLoop | jpmai/main.py:209-237 | the append loop with its `continue`s computes `Choose` |
| JpmaiExtract.ChoosePrefersKept | jpmai/main.py:229-237 | when some line survives, the result is a surviving line, cut, and no surviving line is longer |
| JpmaiExtract.ChooseFallsBack | jpmai/main.py:231-237 | when none survives, the result is a longest line of all, cut |
| JpmaiExtract.SingleLine | jpmai/main.py:202-207 | a non-blank answer without a line break comes back stripped, whatever its length or wording |
| JpmaiConfig.MakeGenerator | jpmai/main.py:72-75 | the stored URL is the given one minus trailing slashes only, and never ends in "/"; key and model as given |
| JpmaiConfig.MakeGeneratorStable | jpmai/main.py:73 | a URL that does not end in "/" is kept as it is, and cleaning twice equals cleaning once |
| JpmaiConfig.Without | jpmai/main.py:390 | after `del keywords[k]` the order no longer holds k and is no longer than before |
| JpmaiConfig.WithoutMembers | jpmai/main.py:390 | `del keywords[k]` removes k from the order and keeps every other keyword |
| JpmaiConfig.WithoutNoDup | jpmai/main.py:390 | removing a keyword keeps the order free of repeats |
| JpmaiConfig.OrderRemove | jpmai/main.py:387-393 | deleting a keyword from the dict and from the order keeps the order listing every keyword exactly once |
| JpmaiConfig.FirstTarget | jpmai/main.py:909-917 | a keyword found is configured and targets the sender in the chat |
| JpmaiConfig.FirstTargetIsFirst | jpmai/main.py:909-917 | the keyword found is the first such in insertion order, and None means no keyword targets them |
| JpmaiConfig.JPMAIConfigManager.constructor | jpmai/main.py:243-252 | the defaults: off, no owner, no API, model `glm-4.6`, no keywords |
| JpmaiConfig.JPMAIConfigManager.Valid | jpmai/main.py:243-252 | the invariant every method keeps: `order` lists each configured keyword exactly once (the dict's insertion order), and a stored URL does not end in "/" |
| JpmaiConfig.JPMAIConfigManager.IsApiConfigured | jpmai/main.py:322-324 | `bool(api_url and api_key)`: both set and non-empty |
| JpmaiConfig.JPMAIConfigManager.Reset | jpmai/main.py:273-280 | every setting back to its default |
| JpmaiConfig.JPMAIConfigManager.AddKeyword | jpmai/main.py:332-360 | invalid input changes nothing; an existing keyword keeps its switch and anchor; a new one is on, with a None anchor, appended to the order |
| JpmaiConfig.JPMAIConfigManager.Put | jpmai/main.py:352-358 | `keywords[k] = entry` on the insertion-ordered dict: the entry is stored, an existing keyword keeps its place, a new one is appended, and the order still lists every keyword exactly once |
| JpmaiConfig.JPMAIConfigManager.SetAnchor | jpmai/main.py:362-369 | unknown keyword: error, no change; otherwise only that keyword's anchor is set |
| JpmaiConfig.JPMAIConfigManager.GetAnchor | jpmai/main.py:371-374 | the anchor iff the keyword is known and an anchor id is stored |
| JpmaiConfig.JPMAIConfigManager.ClearAnchor | jpmai/main.py:376-385 | unknown keyword: error; no anchor key: nothing to clear; otherwise only the anchor key is removed |
| JpmaiConfig.JPMAIConfigManager.DeleteKeyword | jpmai/main.py:387-393 | reports whether the key existed; removes it from the map and the order only |
| JpmaiConfig.JPMAIConfigManager.SetKeywordStatus | jpmai/main.py:395-403 | unknown keyword: error, no change; otherwise only that keyword's switch changes |
| JpmaiConfig.JPMAIConfigManager.SetApi | jpmai/main.py:305-312 | the URL is stored minus trailing slashes; the key as given; the model only when a non-empty one is given |
| JpmaiConfig.JPMAIConfigManager.SetModel | jpmai/main.py:314-320 | a blank name is refused with no change; otherwise the stripped name is stored |
| JpmaiConfig.JPMAIConfigManager.GetGenerator | jpmai/main.py:326-330 | a generator iff the API is configured, built from the stored settings |
| JpmaiConfig.JPMAIConfigManager.TrackAnchor | jpmai/main.py:894-917 | only a group message from a known sender moves an anchor, and only that of the first keyword that targets them |
| JpmaiConfig.JPMAIConfigManager.Enable | jpmai/main.py:613-633 | refused without permission, then refused without API; otherwise on, reporting whether keywords exist |
| JpmaiConfig.JPMAIConfigManager.Disable | jpmai/main.py:636-644 | switched off only for a permitted sender |
| JpmaiConfig.JPMAIConfigManager.SetOwner | jpmai/main.py:737-754 | the owner changes only for a permitted sender |
| JpmaiConfig.SetApiNormalises | jpmai/main.py:307-330 | a stored URL never ends in "/", so the generator gets it unchanged |
| JpmaiConfig.DeleteCommand | jpmai/main.py:713-728 | refused exactly without permission; otherwise deletes the key and clears its trigger record only if it existed |
| JpmaiConfig.ToggleCommand | jpmai/main.py:554-564 | refused exactly without permission; otherwise only that keyword's switch changes, or an error for an unknown keyword |
| JpmaiConfig.PlanTrigger | jpmai/main.py:921-986 | acted on iff it parses, is configured, is in the keyword's chat, plugin and keyword are on, the API is set and the sender id is non-zero; the owner is never throttled |
| JpmaiConfig.ReplyTarget | jpmai/main.py:988-1011 | a non-zero anchor that could be fetched is used (nothing sent if its sender is hidden); otherwise the latest message, if any |
| JpmaiConfig.TriggerJpmai | jpmai/main.py:921-1050 | a reply goes out and is recorded iff the plan is to respond, a target exists and the send went through |
| JpmaiConfig.SwitchedOffIsSilent | jpmai/main.py:951-960 | a switched-off keyword or a store without API is never answered |
| JpmaiCommand.Named | jpmai/main.py:521-545 | any word other than the eleven sub-commands gets the help text |
| JpmaiCommand.Route | jpmai/main.py:512-520 | a keyword is switched only by `on|off <kw> <action>`, on exactly when the action is "on" |
| JpmaiCommand.Dispatch | jpmai/main.py:498-545 | the prompt exactly for blank text |
| JpmaiCommand.DispatchIntended | jpmai/main.py:515-520 | where it departs from `Dispatch` with a toggle, that toggle is the documented `<kw> on|off` form with the keyword as typed |
| JpmaiCommand.SplitLower | jpmai/main.py:512 | lower-casing then splitting equals splitting then lower-casing each word |
| JpmaiCommand.DocumentedToggleIsHelp | jpmai/main.py:512-545 | as written, the documented `<kw> on|off` reaches the help text |
| JpmaiCommand.WrittenToggleForm | jpmai/main.py:512-520 | as written, `on <kw> <action>` switches the lower-cased keyword |
| JpmaiCommand.DocumentedToggleWorks | jpmai/main.py:515-520 | corrected: `<kw> on|off` switches that keyword |
| JpmaiCommand.IntendedOnlyFixesHelp | jpmai/main.py:498-545 | the correction changes only inputs that reached the help text |
| Cai.FirstMatch | cai/main.py:128-133 | the first entry for the (user, chat) pair, or None when there is none |
| Cai.OnlyMatch | cai/main.py:128-133 | in a list without repeats, the entry for a pair is the one found |
| Cai.CAIConfig.constructor | cai/main.py:37-43 | the defaults: off, `["👎"]`, not Premium, no targets, zero reactions |
| Cai.CAIConfig.Load | cai/main.py:45-73 | no file: no change; unreadable, or stats without `total_reacts`: defaults; otherwise each key or its default, and a legacy `emoji` without `emojis` becomes `[emoji]` |
| Cai.CAIConfig.Reset | cai/main.py:66-72 | every setting back to its default |
| Cai.CAIConfig.AddTarget | cai/main.py:97-118 | an existing pair gets the new cooldown and time 0 in place; otherwise a new entry is appended; a list without repeats keeps none |
| Cai.CAIConfig.RemoveTarget | cai/main.py:120-126 | succeeds iff 1 ≤ index ≤ length; removes exactly entry index−1, keeping the order; otherwise no change |
| Cai.CAIConfig.GetTarget | cai/main.py:128-133 | an entry iff the pair has one, and it matches the pair |
| Cai.CAIConfig.CanReact | cai/main.py:143-151 | false for an unknown pair; otherwise iff now − last ≥ cooldown |
| Cai.CAIConfig.UpdateLastReact | cai/main.py:135-141 | a known pair's time becomes now and the counter rises by exactly one; otherwise no change |
| Cai.CAIConfig.MaxEmojis | cai/main.py:189-191 | 3 for Premium, 1 otherwise |
| Cai.CAIConfig.SetEmojis | cai/main.py:193-204 | refused iff the list is longer than allowed, leaving the emojis; otherwise replaced |
| Cai.RemoveKeepsUnique | cai/main.py:120-126 | removing an entry keeps the list without repeats |
| Cai.AddThenGet | cai/main.py:97-133 | after `add_target`, the pair is found at the updated or appended position |
| Cai.ReactionOf | cai/main.py:254-274 | raw without reaction types; otherwise custom iff all digits, standard otherwise |
| Cai.ReactionRoundTrip | cai/main.py:254-274 | a reaction carries exactly the emoji it was made from |
| Cai.GetReactions | cai/main.py:277-297 | same length and order, each emoji converted by `ReactionOf` |
| Cai.SetCommand | cai/main.py:363-380 | a cooldown under 60 is refused with no change; otherwise the target is added or updated |
| Cai.AutoReact | cai/main.py:527-601 | reactions go out iff the plugin is on, the sender is a target whose cooldown passed, and the send went through; then its time is now and the counter rises |
| Cai.CooldownAfterReact | cai/main.py:135-151 | after reacting at `now`, the next reaction is allowed iff `later ≥ now + cooldown` |

## Left out

- File I/O: every `save`, the jpm and jpmai `load`, and the trigger logs' `load`/`save`. Each store update is what `save` would write. For cai, `load` is modelled on the data already read (`Cai.CAIConfig.Load`).
- `AIGenerator.generate_single`, `generate_dual`, `_call_api` and the prompt texts: HTTP calls with retries and timeouts. `TriggerJpmai` stops at the choice of mode and target; the text comes from outside.
- Telegram calls (`get_chat_history`, `get_messages`, `reply`, `delete`, `react`, `send_reaction`, `get_me`), `asyncio.sleep` and logging. Their outcomes are the boolean parameters `found`, `fetch`, `recentFound` and `delivered`.
- `check_premium_status` and `ensure_premium_checked`: `isPremium` is a field that only `Load` sets.
- The `send_reaction` fallback of `auto_react_handler`, taken when `react` is missing. It is folded into `delivered`, and the single emoji it sends is not modelled.
- `HAS_CUSTOM_EMOJI` and the reaction classes: the flag is a parameter and the classes are the `Reaction` datatype.
- `time.time()`: time is an integer parameter, and the float wait `int(rate_limit - elapsed)` is an integer subtraction.
- `random.choice`: an index parameter below the pool size.
- Help, status, list and stats texts, and every reply string of the commands: the commands return datatypes in their place.
- Reading command arguments with `int()` and its `ValueError` replies; `set_keyword`, `manage_anchor`, `set_api`, `set_model` and the cai `set` command are modelled from the point where their numbers and words are read.
- `test_connectivity`; the cai `on`, `off`, `list`, `stats`, `emoji` and `help` sub-commands; the `jpm_command` dispatch, which has no toggle form.
- `str.lower` and `str.isdigit` are modelled for ASCII only. Python also lower-cases and accepts other Unicode letters and digits.
- JpmaiConfig.JPMAIConfigManager.Valid: the "stored URL never ends in /" part holds for URLs stored by `set_api`. A URL read from the file by `load` is not covered.
- Templates.GenerateSingleFills: stated for a name without '{'. A name holding `{target_user}` is rewritten by the second `replace`, as `Templates.NameRewritten` shows.
- JpmTemplates.DualFills: stated for a keyword without '{'. A keyword holding `{target}` is rewritten by the second `replace`, as `JpmTemplates.KeywordRewritten` shows.
- CatchupTemplates.SingleReplies: stated for a name without '{', for the reason given for `GenerateSingleFills`.
- CatchupTemplates.DualReplies: stated for a sender name without '{'. A sender holding `{target_user}` is rewritten by the second `replace`, as `CatchupTemplates.SenderRewritten` shows.

## Findings

| source | as written | input that shows it | evidently intended | confidence | as-written member | corrected member |
|---|---|---|---|---|---|---|
| jpmai/main.py:512-545 | the keyword switch fires only when the first word is `on`/`off` and three words follow, so the form the help text documents (`,jpmai keyword1 on`, jpmai/main.py:593-594) falls through to the help text | `,jpmai keyword1 on` | switch keyword `keyword1` on | not executed | JpmaiCommand.DocumentedToggleIsHelp | JpmaiCommand.DocumentedToggleWorks |
