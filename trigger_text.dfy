/**
 * What the jpm and jpmai trigger listeners share: splitting `/keyword [param]`
 * into its parts, the display name of a user, the single/dual reply choice, and
 * the two owner tests (`check_permission` for commands, `is_owner` for cooldowns).
 * Both plugin files carry this code line for line.
 */
module TriggerText {
  import opened Wrappers
  import opened PyStr

  /** A Telegram user as the plugins read it. */
  datatype User = User(id: int, username: Option<string>, firstName: Option<string>)

  /** The message being replied to, if any; its sender may be hidden. */
  datatype ReplyTo = ReplyTo(from: Option<User>)

  /** An incoming message: its text (`message.text or ""`), chat, sender and reply target. */
  datatype Message = Message(text: string, chatId: int, from: Option<User>, replyTo: Option<ReplyTo>)

  /** `/keyword [param]` once split. */
  datatype Trigger = Trigger(keyword: string, param: Option<string>)

  /** The reply to produce: one name, or the keyword and a second name. */
  datatype Mode = Single(name: string) | Dual(name: string, second: string)

  /** What a trigger listener does with a message before any network call. */
  datatype Plan = Ignore | Throttled(wait: int) | Respond(keyword: string, mode: Mode)

  /** The parsing at the head of `trigger_jpm` / `trigger_jpmai`: only text starting with
      "/" counts, the keyword is the first whitespace-separated word after it and the
      parameter the second; text with no word after the "/" is ignored. */
  function ParseTrigger(text: string): (t: Option<Trigger>)
    ensures t.Some? <==> |text| > 0 && text[0] == '/' && !AllSpace(text[1..])
    ensures t.Some? ==> IsToken(t.value.keyword)
    ensures t.Some? && t.value.param.Some? ==> IsToken(t.value.param.value)
  {
    if !("/" <= text) then
      None
    else
      var rest := Strip(text[1..]);
      var parts := Split(rest);
      SplitEmpty(rest);
      SplitTokens(rest);
      assert parts == [] <==> AllSpace(text[1..]) by {
        if rest != [] { assert !IsSpace(rest[0]); }
      }
      if parts == [] then None
      else Some(Trigger(parts[0], if |parts| > 1 then Some(parts[1]) else None))
  }

  /** `/keyword` alone parses back to the keyword with no parameter. */
  lemma {:induction false} ParseKeywordOnly(keyword: string)
    requires IsToken(keyword)
    ensures ParseTrigger("/" + keyword) == Some(Trigger(keyword, None))
  {
    assert ("/" + keyword)[1..] == keyword;
    assert Strip(keyword) == keyword;
    SplitToken(keyword);
  }

  /** `/keyword param` parses back to exactly that keyword and parameter. */
  lemma {:induction false} ParseKeywordParam(keyword: string, param: string)
    requires IsToken(keyword) && IsToken(param)
    ensures ParseTrigger("/" + keyword + " " + param) == Some(Trigger(keyword, Some(param)))
  {
    var text := "/" + keyword + " " + param;
    assert text[1..] == keyword + " " + param;
    assert text[1..][0] == keyword[0];
    assert text[1..][|text[1..]| - 1] == param[|param| - 1];
    assert Strip(text[1..]) == text[1..];
    SplitTwo(keyword, param);
  }

  /** `username or first_name or str(id)`: the first non-empty of the three, never empty. */
  function DisplayName(u: User): (n: string)
    ensures n != []
    ensures u.username.Some? && u.username.value != [] ==> n == u.username.value
    ensures n == IntToStr(u.id) || (u.username.Some? && n == u.username.value) || (u.firstName.Some? && n == u.firstName.value)
  {
    if u.username.Some? && u.username.value != [] then u.username.value
    else if u.firstName.Some? && u.firstName.value != [] then u.firstName.value
    else IntToStr(u.id)
  }

  /** `use_dual = is_reply_to_someone or has_param`. */
  predicate WantsDual(t: Trigger, replyTo: Option<ReplyTo>) {
    replyTo.Some? || t.param.Some?
  }

  /** The mode and second-name choice of the trigger listeners. A reply is dual only
      when dual was asked for (a reply or a parameter); the parameter wins over the
      replied-to user's name; a reply to a message whose sender is hidden and no
      parameter falls back to a single reply. The first name is always the keyword. */
  function ChooseMode(t: Trigger, replyTo: Option<ReplyTo>): (m: Mode)
    ensures m.name == t.keyword
    ensures m.Dual? ==> WantsDual(t, replyTo) && m.second != []
    ensures t.param.Some? && t.param.value != [] ==> m == Dual(t.keyword, t.param.value)
    ensures t.param.None? && replyTo.Some? && replyTo.value.from.Some? ==>
              m == Dual(t.keyword, DisplayName(replyTo.value.from.value))
    ensures t.param.None? && (replyTo.None? || replyTo.value.from.None?) ==> m == Single(t.keyword)
  {
    if WantsDual(t, replyTo) then
      var second :=
        if t.param.Some? then t.param
        else if replyTo.Some? && replyTo.value.from.Some? then Some(DisplayName(replyTo.value.from.value))
        else None;
      if second.Some? && second.value != [] then Dual(t.keyword, second.value) else Single(t.keyword)
    else
      Single(t.keyword)
  }

  /** From raw text to reply mode: `/keyword param` answers in dual mode with the
      parameter as second name whatever the message replies to, and `/keyword` alone
      answers in single mode unless it replies to a message with a visible sender. */
  lemma {:induction false} TextToMode(keyword: string, param: string, replyTo: Option<ReplyTo>)
    requires IsToken(keyword) && IsToken(param)
    ensures ChooseMode(ParseTrigger("/" + keyword + " " + param).value, replyTo) == Dual(keyword, param)
    ensures replyTo.None? ==> ChooseMode(ParseTrigger("/" + keyword).value, replyTo) == Single(keyword)
  {
    ParseKeywordParam(keyword, param);
    ParseKeywordOnly(keyword);
  }

  /** `check_permission`: anyone may run a management command while no owner is set;
      once one is set, only the owner may. */
  function CheckPermission(ownerId: Option<int>, senderId: int): (ok: bool)
    ensures ownerId.None? ==> ok
    ensures ownerId.Some? ==> (ok <==> senderId == ownerId.value)
  {
    ownerId.None? || senderId == ownerId.value
  }

  /** `is_owner` in the trigger listeners: `(id == owner_id) if owner_id else False`,
      so no one is the owner while the owner id is unset or 0. */
  function IsOwner(ownerId: Option<int>, senderId: int): (b: bool)
    ensures b ==> ownerId == Some(senderId)
    ensures ownerId == Some(senderId) && senderId != 0 ==> b
  {
    if ownerId.Some? && ownerId.value != 0 then senderId == ownerId.value else false
  }

  /** The two owner tests agree on the owner, but differ while no owner is set:
      everyone may manage, and no one skips the cooldown. */
  lemma OwnerTests(ownerId: Option<int>, senderId: int)
    ensures IsOwner(ownerId, senderId) ==> CheckPermission(ownerId, senderId)
    ensures ownerId.None? ==> CheckPermission(ownerId, senderId) && !IsOwner(ownerId, senderId)
  {
  }
}
