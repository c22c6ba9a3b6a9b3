/**
 * The cai plugin's configuration (`CAIConfig`): a list of (user, chat) targets, each
 * with its own cooldown and last reaction time, the reaction emojis and a reaction
 * counter; the conversion of emojis into reactions (`get_reactions`); the `set`
 * command's lower bound on the cooldown; and the decision of the listener that
 * reacts to a target's messages. Saving to the JSON file is left out; every update
 * below is what `save` would write. Time is whole seconds passed in by the caller.
 */
module Cai {
  import opened Wrappers
  import opened PyStr

  /** The default reaction, a thumbs-down. */
  const DefaultEmoji: string := "👎"

  /** The smallest cooldown the `set` command accepts, in seconds. */
  const MinRateLimit: int := 60

  /** One target: whose messages, in which chat, how often, and when last reacted to
      (0 for never). */
  datatype Target = Target(userId: int, chatId: int, rateLimit: int, lastReactTime: int)

  /** The target is the given user in the given chat. */
  predicate Matches(t: Target, userId: int, chatId: int) {
    t.userId == userId && t.chatId == chatId
  }

  /** No (user, chat) pair has two entries. */
  predicate Unique(ts: seq<Target>) {
    forall i, j :: 0 <= i < j < |ts| ==> !(ts[i].userId == ts[j].userId && ts[i].chatId == ts[j].chatId)
  }

  /** The position of the first entry for the pair, as the loops of `add_target` and
      `get_target` find it. */
  function FirstMatch(ts: seq<Target>, userId: int, chatId: int): (r: Option<nat>)
    ensures r.Some? ==> r.value < |ts| && Matches(ts[r.value], userId, chatId)
    ensures r.Some? ==> forall j :: 0 <= j < r.value ==> !Matches(ts[j], userId, chatId)
    ensures r.None? ==> forall j :: 0 <= j < |ts| ==> !Matches(ts[j], userId, chatId)
    decreases |ts|
  {
    if ts == [] then None
    else if Matches(ts[0], userId, chatId) then Some(0)
    else
      var r := FirstMatch(ts[1..], userId, chatId);
      if r.Some? then Some(r.value + 1) else None
  }

  /** In a list without repeats, the entry for a pair is the only one there is. */
  lemma OnlyMatch(ts: seq<Target>, userId: int, chatId: int, i: nat)
    requires Unique(ts) && i < |ts| && Matches(ts[i], userId, chatId)
    ensures FirstMatch(ts, userId, chatId) == Some(i)
  {
  }

  /** What `add_target` did, with the 1-based position it reports. */
  datatype AddOutcome = Updated(position: int) | Added(position: int)

  /** A reaction as sent: the bare emoji when the client has no reaction types, otherwise
      a custom-emoji reaction for an all-digit id and a standard one for anything else. */
  datatype Reaction = Raw(emoji: string) | Standard(emoji: string) | Custom(customEmojiId: string)

  /** What a saved file holds; a key the file lacks is None. `stats` is None without a
      "stats" key, and Some(None) for a "stats" object without "total_reacts". */
  datatype SavedConfig = SavedConfig(
    enabled: Option<bool>, isPremium: Option<bool>,
    emoji: Option<string>, emojis: Option<seq<string>>,
    targets: Option<seq<Target>>, stats: Option<Option<int>>)

  /** The outcome of opening the file: none there, unreadable, or read. */
  datatype LoadSource = NoFile | Unreadable | Read(data: SavedConfig)

  class CAIConfig {
    /** The global switch. */
    var enabled: bool
    /** The reactions to send, as emojis or custom-emoji ids. */
    var emojis: seq<string>
    /** Whether the account is Telegram Premium (more reactions per message). */
    var isPremium: bool
    /** The targets, in the order they were added. */
    var targets: seq<Target>
    /** `stats["total_reacts"]`: how many reactions were sent. */
    var totalReacts: int

    /** The defaults `__init__` sets before reading the file. */
    constructor()
      ensures !enabled && emojis == [DefaultEmoji] && !isPremium && targets == [] && totalReacts == 0
    {
      enabled := false;
      emojis := [DefaultEmoji];
      isPremium := false;
      targets := [];
      totalReacts := 0;
    }

    /** `load`: no file changes nothing; a file that cannot be read, or whose "stats" has
        no "total_reacts" (the log line after reading fails on it), resets everything to
        the defaults; otherwise every key present is taken and every key missing gets its
        default, and a file with a legacy "emoji" but no "emojis" gets that one emoji as
        its list. */
    method Load(src: LoadSource)
      modifies this
      ensures src.NoFile? ==>
                enabled == old(enabled) && emojis == old(emojis) && isPremium == old(isPremium)
                && targets == old(targets) && totalReacts == old(totalReacts)
      ensures src.Unreadable? || (src.Read? && src.data.stats == Some(None)) ==>
                !enabled && emojis == [DefaultEmoji] && !isPremium && targets == [] && totalReacts == 0
      ensures src.Read? && src.data.stats != Some(None) ==>
                var d := src.data;
                && enabled == (if d.enabled.Some? then d.enabled.value else false)
                && isPremium == (if d.isPremium.Some? then d.isPremium.value else false)
                && (d.emoji.Some? && d.emojis.None? ==> emojis == [d.emoji.value])
                && (d.emojis.Some? ==> emojis == d.emojis.value)
                && (d.emoji.None? && d.emojis.None? ==> emojis == [DefaultEmoji])
                && targets == (if d.targets.Some? then d.targets.value else [])
                && totalReacts == (if d.stats.Some? then d.stats.value.value else 0)
    {
      match src
      case NoFile =>
      case Unreadable =>
        Reset();
      case Read(d) =>
        if d.stats == Some(None) {
          Reset();
          return;
        }
        enabled := if d.enabled.Some? then d.enabled.value else false;
        isPremium := if d.isPremium.Some? then d.isPremium.value else false;
        if d.emoji.Some? && d.emojis.None? {
          emojis := [d.emoji.value];
        } else {
          emojis := if d.emojis.Some? then d.emojis.value else [DefaultEmoji];
        }
        targets := if d.targets.Some? then d.targets.value else [];
        totalReacts := if d.stats.Some? then d.stats.value.value else 0;
    }

    /** The reset in `load`'s error branch. */
    method Reset()
      modifies this
      ensures !enabled && emojis == [DefaultEmoji] && !isPremium && targets == [] && totalReacts == 0
    {
      enabled := false;
      isPremium := false;
      emojis := [DefaultEmoji];
      targets := [];
      totalReacts := 0;
    }

    /** `add_target`: the first entry for the pair, if any, gets the new cooldown and its
        time reset to 0, in place; otherwise a new entry is appended. No entry is ever
        added for a pair that has one, so a list without repeats keeps none. */
    method AddTarget(userId: int, chatId: int, rateLimit: int) returns (r: AddOutcome)
      modifies this
      ensures var m := FirstMatch(old(targets), userId, chatId);
              && (m.Some? ==> r == Updated(m.value + 1)
                              && targets == old(targets)[m.value := Target(userId, chatId, rateLimit, 0)])
              && (m.None? ==> r == Added(|old(targets)| + 1)
                              && targets == old(targets) + [Target(userId, chatId, rateLimit, 0)])
      ensures Unique(old(targets)) ==> Unique(targets)
      ensures enabled == old(enabled) && emojis == old(emojis) && isPremium == old(isPremium)
      ensures totalReacts == old(totalReacts)
    {
      var i := 0;
      while i < |targets|
        invariant 0 <= i <= |targets|
        invariant targets == old(targets)
        invariant forall j :: 0 <= j < i ==> !Matches(targets[j], userId, chatId)
      {
        if targets[i].userId == userId && targets[i].chatId == chatId {
          assert FirstMatch(targets, userId, chatId) == Some(i);
          targets := targets[i := Target(userId, chatId, rateLimit, 0)];
          return Updated(i + 1);
        }
        i := i + 1;
      }
      targets := targets + [Target(userId, chatId, rateLimit, 0)];
      r := Added(|targets|);
    }

    /** `remove_target(index)`: a 1-based index within the list removes exactly that
        entry and keeps the others in order; any other index changes nothing. */
    method RemoveTarget(index: int) returns (removed: Option<Target>)
      modifies this
      ensures removed.Some? <==> 1 <= index <= |old(targets)|
      ensures removed.Some? ==> removed.value == old(targets)[index - 1]
                                && targets == old(targets)[..index - 1] + old(targets)[index..]
      ensures removed.None? ==> targets == old(targets)
      ensures Unique(old(targets)) ==> Unique(targets)
      ensures enabled == old(enabled) && emojis == old(emojis) && isPremium == old(isPremium)
      ensures totalReacts == old(totalReacts)
    {
      if 1 <= index <= |targets| {
        removed := Some(targets[index - 1]);
        RemoveKeepsUnique(targets, index - 1);
        targets := targets[..index - 1] + targets[index..];
      } else {
        removed := None;
      }
    }

    /** `get_target`: the first entry for the pair, or None. */
    function GetTarget(userId: int, chatId: int): (t: Option<Target>)
      reads this
      ensures t.Some? <==> exists i :: 0 <= i < |targets| && Matches(targets[i], userId, chatId)
      ensures t.Some? ==> Matches(t.value, userId, chatId) && t.value in targets
    {
      var m := FirstMatch(targets, userId, chatId);
      if m.Some? then Some(targets[m.value]) else None
    }

    /** `can_react`: never for a pair without an entry; otherwise once at least the
        entry's cooldown has passed since its last reaction. */
    function CanReact(userId: int, chatId: int, now: int): (ok: bool)
      reads this
      ensures ok ==> GetTarget(userId, chatId).Some?
      ensures GetTarget(userId, chatId).Some? ==>
                (ok <==> now - GetTarget(userId, chatId).value.lastReactTime >= GetTarget(userId, chatId).value.rateLimit)
    {
      var t := GetTarget(userId, chatId);
      t.Some? && now - t.value.lastReactTime >= t.value.rateLimit
    }

    /** `update_last_react`: the pair's first entry gets `now` as its time and the counter
        goes up by exactly one; a pair without an entry changes nothing. */
    method UpdateLastReact(userId: int, chatId: int, now: int)
      modifies this
      ensures var m := FirstMatch(old(targets), userId, chatId);
              && (m.Some? ==> targets == old(targets)[m.value := old(targets)[m.value].(lastReactTime := now)]
                              && totalReacts == old(totalReacts) + 1)
              && (m.None? ==> targets == old(targets) && totalReacts == old(totalReacts))
      ensures enabled == old(enabled) && emojis == old(emojis) && isPremium == old(isPremium)
    {
      var m := FirstMatch(targets, userId, chatId);
      if m.Some? {
        targets := targets[m.value := targets[m.value].(lastReactTime := now)];
        totalReacts := totalReacts + 1;
      }
    }

    /** `max_emojis`: three reactions for a Premium account, one otherwise. */
    function MaxEmojis(): (n: nat)
      reads this
      ensures isPremium ==> n == 3
      ensures !isPremium ==> n == 1
    {
      if isPremium then 3 else 1
    }

    /** `set_emojis`: a list longer than the account allows is refused and nothing
        changes; otherwise it replaces the emojis. */
    method SetEmojis(newEmojis: seq<string>) returns (ok: bool)
      modifies this
      ensures ok <==> |newEmojis| <= old(MaxEmojis())
      ensures emojis == if ok then newEmojis else old(emojis)
      ensures enabled == old(enabled) && isPremium == old(isPremium)
      ensures targets == old(targets) && totalReacts == old(totalReacts)
    {
      if |newEmojis| > MaxEmojis() {
        return false;
      }
      emojis := newEmojis;
      ok := true;
    }
  }

  /** Removing one entry keeps a list without repeats without repeats. */
  lemma RemoveKeepsUnique(ts: seq<Target>, k: nat)
    requires k < |ts|
    ensures Unique(ts) ==> Unique(ts[..k] + ts[k + 1..])
  {
    if Unique(ts) {
      var r := ts[..k] + ts[k + 1..];
      forall i, j | 0 <= i < j < |r| ensures !(r[i].userId == r[j].userId && r[i].chatId == r[j].chatId) {
        var i' := if i < k then i else i + 1;
        var j' := if j < k then j else j + 1;
        assert r[i] == ts[i'] && r[j] == ts[j'];
      }
    }
  }

  /** `add_target` on a pair keeps one entry for it and leaves every other pair's entry
      alone: after it, the pair's entry has the new cooldown and a reset time. */
  lemma AddThenGet(ts: seq<Target>, userId: int, chatId: int, rateLimit: int)
    ensures var m := FirstMatch(ts, userId, chatId);
            var after := if m.Some? then ts[m.value := Target(userId, chatId, rateLimit, 0)]
                         else ts + [Target(userId, chatId, rateLimit, 0)];
            FirstMatch(after, userId, chatId) == Some(if m.Some? then m.value else |ts|)
  {
    var m := FirstMatch(ts, userId, chatId);
    var after := if m.Some? then ts[m.value := Target(userId, chatId, rateLimit, 0)]
                 else ts + [Target(userId, chatId, rateLimit, 0)];
    var want := if m.Some? then m.value else |ts|;
    var f := FirstMatch(after, userId, chatId);
    assert Matches(after[want], userId, chatId);
    assert forall j :: 0 <= j < want ==> after[j] == ts[j];
  }

  // ---------------------------------------------------------------------
  // Reactions

  /** The reaction for one emoji string (`get_reaction`): with reaction types available,
      an all-digit string is a custom-emoji id and anything else a standard emoji. */
  function ReactionOf(emoji: string, hasCustomEmoji: bool): (r: Reaction)
    ensures r.Raw? <==> !hasCustomEmoji
    ensures r.Custom? <==> hasCustomEmoji && IsDigits(emoji)
    ensures r.Standard? <==> hasCustomEmoji && !IsDigits(emoji)
  {
    if !hasCustomEmoji then Raw(emoji)
    else if IsDigits(emoji) then Custom(emoji)
    else Standard(emoji)
  }

  /** The emoji string a reaction carries. */
  function EmojiOf(r: Reaction): string {
    match r
    case Raw(e) => e
    case Standard(e) => e
    case Custom(id) => id
  }

  /** The reaction carries exactly the emoji it was made from. */
  lemma ReactionRoundTrip(emoji: string, hasCustomEmoji: bool)
    ensures EmojiOf(ReactionOf(emoji, hasCustomEmoji)) == emoji
  {
  }

  /** `get_reactions`: the emojis converted one by one, in order. */
  method GetReactions(emojis: seq<string>, hasCustomEmoji: bool) returns (reactions: seq<Reaction>)
    ensures |reactions| == |emojis|
    ensures forall i :: 0 <= i < |emojis| ==> reactions[i] == ReactionOf(emojis[i], hasCustomEmoji)
  {
    if !hasCustomEmoji {
      return seq(|emojis|, i requires 0 <= i < |emojis| => Raw(emojis[i]));
    }
    reactions := [];
    var i := 0;
    while i < |emojis|
      invariant 0 <= i <= |emojis|
      invariant |reactions| == i
      invariant forall j :: 0 <= j < i ==> reactions[j] == ReactionOf(emojis[j], hasCustomEmoji)
    {
      if IsDigits(emojis[i]) {
        reactions := reactions + [Custom(emojis[i])];
      } else {
        reactions := reactions + [Standard(emojis[i])];
      }
      i := i + 1;
    }
  }

  // ---------------------------------------------------------------------
  // Commands and the listener

  /** What `,cai set` did. */
  datatype SetOutcome = RateTooLow | Set(outcome: AddOutcome)

  /** `,cai set <user> <chat> <seconds>` once its numbers are read: a cooldown under 60
      seconds is refused and nothing changes; otherwise the target is added or updated. */
  method SetCommand(cfg: CAIConfig, userId: int, chatId: int, rateLimit: int) returns (r: SetOutcome)
    modifies cfg
    ensures r == RateTooLow <==> rateLimit < MinRateLimit
    ensures r == RateTooLow ==> cfg.targets == old(cfg.targets)
    ensures r.Set? ==> var m := FirstMatch(old(cfg.targets), userId, chatId);
              && (m.Some? ==> cfg.targets == old(cfg.targets)[m.value := Target(userId, chatId, rateLimit, 0)])
              && (m.None? ==> cfg.targets == old(cfg.targets) + [Target(userId, chatId, rateLimit, 0)])
    ensures Unique(old(cfg.targets)) ==> Unique(cfg.targets)
    ensures cfg.enabled == old(cfg.enabled) && cfg.emojis == old(cfg.emojis) && cfg.totalReacts == old(cfg.totalReacts)
    ensures cfg.isPremium == old(cfg.isPremium)
  {
    if rateLimit < MinRateLimit {
      return RateTooLow;
    }
    var added := cfg.AddTarget(userId, chatId, rateLimit);
    r := Set(added);
  }

  /** `auto_react_handler`: while the plugin is on, a message from a target whose cooldown
      has passed gets the configured reactions (`delivered` says whether sending them
      went through); then the target's time becomes `now` and the counter goes up. */
  method AutoReact(cfg: CAIConfig, senderId: Option<int>, chatId: int, now: int,
                   hasCustomEmoji: bool, delivered: bool)
    returns (sent: Option<seq<Reaction>>)
    modifies cfg
    ensures var go := old(cfg.enabled) && senderId.Some? && old(cfg.CanReact(senderId.value, chatId, now));
            && (sent.Some? <==> go && delivered)
            && (sent.Some? ==> |sent.value| == |old(cfg.emojis)|
                               && forall i :: 0 <= i < |sent.value| ==> sent.value[i] == ReactionOf(old(cfg.emojis)[i], hasCustomEmoji))
    ensures sent.Some? ==>
              var m := FirstMatch(old(cfg.targets), senderId.value, chatId);
              m.Some? && cfg.targets == old(cfg.targets)[m.value := old(cfg.targets)[m.value].(lastReactTime := now)]
              && cfg.totalReacts == old(cfg.totalReacts) + 1
    ensures sent.None? ==> cfg.targets == old(cfg.targets) && cfg.totalReacts == old(cfg.totalReacts)
    ensures cfg.enabled == old(cfg.enabled) && cfg.emojis == old(cfg.emojis) && cfg.isPremium == old(cfg.isPremium)
  {
    if !cfg.enabled || senderId.None? {
      return None;
    }
    if !cfg.CanReact(senderId.value, chatId, now) {
      return None;
    }
    var reactions := GetReactions(cfg.emojis, hasCustomEmoji);
    if !delivered {
      return None;
    }
    cfg.UpdateLastReact(senderId.value, chatId, now);
    sent := Some(reactions);
  }

  /** Right after reacting to a target at `now`, the next reaction to it waits exactly
      its cooldown: none before `now + rateLimit`, and from then on again. */
  lemma CooldownAfterReact(ts: seq<Target>, userId: int, chatId: int, now: int, later: int)
    requires FirstMatch(ts, userId, chatId).Some?
    ensures var m := FirstMatch(ts, userId, chatId).value;
            var after := ts[m := ts[m].(lastReactTime := now)];
            && FirstMatch(after, userId, chatId) == Some(m)
            && (later - after[m].lastReactTime >= after[m].rateLimit <==> later >= now + ts[m].rateLimit)
  {
    var m := FirstMatch(ts, userId, chatId).value;
    var after := ts[m := ts[m].(lastReactTime := now)];
    var f := FirstMatch(after, userId, chatId);
    assert Matches(after[m], userId, chatId);
    assert forall j :: 0 <= j < m ==> after[j] == ts[j];
  }
}
