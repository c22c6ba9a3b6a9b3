/**
 * The jpmai plugin's configuration store (`JPMAIConfigManager`), the URL clean-up of
 * `AIGenerator`, the anchor tracker `track_anchor_messages`, and the decisions of the
 * management commands and of the trigger listener `trigger_jpmai`. Saving to the
 * JSON file is left out; every store update below is what `save` would write.
 *
 * A keyword's record is a dict whose "anchor_message_id" key is present with an id,
 * present with None (a new keyword), or absent (after `clear_anchor`); `AnchorSlot`
 * keeps the three apart. Python dicts iterate in insertion order, which decides
 * which keyword the anchor tracker updates, so the store keeps that order in `order`.
 */
module JpmaiConfig {
  import opened Wrappers
  import opened PyStr
  import opened KeywordRules
  import opened TriggerLog
  import opened TriggerText

  /** `DEFAULT_MODEL`. */
  const DefaultModel: string := "glm-4.6"

  /** The "anchor_message_id" entry of a keyword record: absent, or present with a value. */
  datatype AnchorSlot = Missing | Held(id: Option<int>)

  /** What `.get("anchor_message_id")` reads from a slot: None when absent. */
  function AnchorOf(a: AnchorSlot): Option<int> {
    if a.Held? then a.id else None
  }

  /** One keyword's record. */
  datatype KeywordEntry = KeywordEntry(
    targetUserId: int, targetChatId: int, rateLimitSeconds: int, anchor: AnchorSlot, enabled: bool)

  // ---------------------------------------------------------------------
  // AIGenerator

  /** The connection settings an `AIGenerator` keeps (the HTTP call itself is not modelled). */
  datatype AIGenerator = AIGenerator(apiUrl: string, apiKey: string, model: string)

  /** `AIGenerator.__init__`: the URL loses its trailing slashes and nothing else; the key
      and the model are kept as given. */
  function MakeGenerator(apiUrl: string, apiKey: string, model: string): (g: AIGenerator)
    ensures |g.apiUrl| <= |apiUrl| && g.apiUrl == apiUrl[..|g.apiUrl|]
    ensures forall i :: |g.apiUrl| <= i < |apiUrl| ==> apiUrl[i] == '/'
    ensures g.apiUrl == [] || g.apiUrl[|g.apiUrl| - 1] != '/'
    ensures g.apiKey == apiKey && g.model == model
  {
    AIGenerator(RStripChar(apiUrl, '/'), apiKey, model)
  }

  /** A URL that does not end in "/" goes through the clean-up unchanged, so cleaning
      twice is cleaning once. */
  lemma {:induction false} MakeGeneratorStable(apiUrl: string, apiKey: string, model: string)
    ensures apiUrl == [] || apiUrl[|apiUrl| - 1] != '/' ==> MakeGenerator(apiUrl, apiKey, model).apiUrl == apiUrl
    ensures var g := MakeGenerator(apiUrl, apiKey, model);
            MakeGenerator(g.apiUrl, g.apiKey, g.model) == g
  {
    var g := MakeGenerator(apiUrl, apiKey, model);
    assert RStripChar(g.apiUrl, '/') == g.apiUrl;
  }

  // ---------------------------------------------------------------------
  // Insertion order

  /** No keyword is listed twice. */
  predicate NoDup(s: seq<string>) {
    forall i, j :: 0 <= i < j < |s| ==> s[i] != s[j]
  }

  /** The order after `del keywords[x]`: `s` without `x`, the rest in order. */
  function Without(s: seq<string>, x: string): (r: seq<string>)
    ensures x !in r && |r| <= |s|
    decreases |s|
  {
    if s == [] then []
    else if s[0] == x then Without(s[1..], x)
    else [s[0]] + Without(s[1..], x)
  }

  /** Removing a keyword keeps every other keyword, and only those. */
  lemma {:induction false} WithoutMembers(s: seq<string>, x: string)
    ensures forall y :: y in Without(s, x) <==> y in s && y != x
    decreases |s|
  {
    if s != [] {
      WithoutMembers(s[1..], x);
      assert s == [s[0]] + s[1..];
    }
  }

  /** Removing a keyword that is not listed changes nothing. */
  lemma {:induction false} WithoutAbsent(s: seq<string>, x: string)
    requires x !in s
    ensures Without(s, x) == s
    decreases |s|
  {
    if s != [] {
      assert x !in s[1..] by {
        assert forall y :: y in s[1..] ==> y in s;
      }
      WithoutAbsent(s[1..], x);
      assert s == [s[0]] + s[1..];
    }
  }

  /** Removing a keyword keeps the list free of repeats. */
  lemma {:induction false} WithoutNoDup(s: seq<string>, x: string)
    requires NoDup(s)
    ensures NoDup(Without(s, x))
    decreases |s|
  {
    if s != [] {
      assert NoDup(s[1..]) by {
        forall i, j | 0 <= i < j < |s[1..]| ensures s[1..][i] != s[1..][j] {
          assert s[1..][i] == s[i + 1] && s[1..][j] == s[j + 1];
        }
      }
      WithoutNoDup(s[1..], x);
      WithoutMembers(s[1..], x);
      if s[0] != x {
        var r := Without(s[1..], x);
        assert s[0] !in s[1..];
        assert s[0] !in r;
        forall i, j | 0 <= i < j < |[s[0]] + r| ensures ([s[0]] + r)[i] != ([s[0]] + r)[j] {
          if i == 0 {
            assert ([s[0]] + r)[j] == r[j - 1];
            assert r[j - 1] in r;
          } else {
            assert ([s[0]] + r)[i] == r[i - 1] && ([s[0]] + r)[j] == r[j - 1];
          }
        }
      }
    }
  }

  /** `order` lists every key of `keywords` exactly once and nothing else. */
  ghost predicate OrderOf(order: seq<string>, keywords: map<string, KeywordEntry>) {
    && NoDup(order)
    && (forall k :: k in keywords ==> k in order)
    && (forall i :: 0 <= i < |order| ==> order[i] in keywords)
  }

  /** A new keyword appended to the order of a store without it keeps the order exact. */
  lemma OrderAppend(order: seq<string>, keywords: map<string, KeywordEntry>, keyword: string, e: KeywordEntry)
    requires OrderOf(order, keywords) && keyword !in keywords
    ensures OrderOf(order + [keyword], keywords[keyword := e])
  {
    var o := order + [keyword];
    forall i, j | 0 <= i < j < |o| ensures o[i] != o[j] {
      if j == |order| {
        assert o[i] == order[i] && order[i] in order;
      } else {
        assert o[i] == order[i] && o[j] == order[j];
      }
    }
  }

  /** Removing a keyword from both the store and the order keeps the order exact. */
  lemma OrderRemove(order: seq<string>, keywords: map<string, KeywordEntry>, keyword: string)
    requires OrderOf(order, keywords)
    ensures OrderOf(Without(order, keyword), keywords - {keyword})
  {
    var w := Without(order, keyword);
    WithoutNoDup(order, keyword);
    WithoutMembers(order, keyword);
    forall i | 0 <= i < |w| ensures w[i] in keywords - {keyword} {
      assert w[i] in w;
      var j :| 0 <= j < |order| && order[j] == w[i];
    }
  }

  /** Overwriting the record of a keyword already present keeps the order exact. */
  lemma OrderUpdate(order: seq<string>, keywords: map<string, KeywordEntry>, keyword: string, e: KeywordEntry)
    requires OrderOf(order, keywords) && keyword in keywords
    ensures OrderOf(order, keywords[keyword := e])
  {
  }

  // ---------------------------------------------------------------------
  // The anchor tracker's search

  /** The record of `k` names user `sender` in chat `chat` as its target. */
  predicate Targets(keywords: map<string, KeywordEntry>, k: string, sender: int, chat: int) {
    k in keywords && keywords[k].targetUserId == sender && keywords[k].targetChatId == chat
  }

  /** The first keyword, in insertion order, whose target is `sender` in `chat`. */
  function FirstTarget(order: seq<string>, keywords: map<string, KeywordEntry>, sender: int, chat: int): (r: Option<string>)
    ensures r.Some? ==> r.value in order && Targets(keywords, r.value, sender, chat)
    decreases |order|
  {
    if order == [] then None
    else if Targets(keywords, order[0], sender, chat) then Some(order[0])
    else FirstTarget(order[1..], keywords, sender, chat)
  }

  /** The keyword found is the first in the order that targets the sender in the chat,
      and none is found exactly when no keyword targets them. */
  lemma {:induction false} FirstTargetIsFirst(order: seq<string>, keywords: map<string, KeywordEntry>, sender: int, chat: int)
    ensures var r := FirstTarget(order, keywords, sender, chat);
            r.None? <==> forall j :: 0 <= j < |order| ==> !Targets(keywords, order[j], sender, chat)
    ensures var r := FirstTarget(order, keywords, sender, chat);
            r.Some? ==> exists i :: 0 <= i < |order| && order[i] == r.value
                                   && forall j :: 0 <= j < i ==> !Targets(keywords, order[j], sender, chat)
    decreases |order|
  {
    if order != [] && !Targets(keywords, order[0], sender, chat) {
      var tail := order[1..];
      FirstTargetIsFirst(tail, keywords, sender, chat);
      assert forall j :: 1 <= j < |order| ==> order[j] == tail[j - 1];
      var r := FirstTarget(tail, keywords, sender, chat);
      if r.Some? {
        var i :| 0 <= i < |tail| && tail[i] == r.value
                 && forall j :: 0 <= j < i ==> !Targets(keywords, tail[j], sender, chat);
        assert order[i + 1] == r.value;
        forall j | 0 <= j < i + 1 ensures !Targets(keywords, order[j], sender, chat) {
          if j > 0 { assert order[j] == tail[j - 1]; }
        }
      }
    } else if order != [] {
      assert order[0] == FirstTarget(order, keywords, sender, chat).value;
    }
  }

  /** A keyword that does not target the sender is passed over by the search. */
  lemma FirstTargetSkip(order: seq<string>, keywords: map<string, KeywordEntry>, sender: int, chat: int, i: nat)
    requires i < |order| && !Targets(keywords, order[i], sender, chat)
    ensures FirstTarget(order[i..], keywords, sender, chat) == FirstTarget(order[i + 1..], keywords, sender, chat)
  {
    assert order[i..][1..] == order[i + 1..];
  }

  /** A keyword that targets the sender ends the search there. */
  lemma FirstTargetHere(order: seq<string>, keywords: map<string, KeywordEntry>, sender: int, chat: int, i: nat)
    requires i < |order| && Targets(keywords, order[i], sender, chat)
    ensures FirstTarget(order[i..], keywords, sender, chat) == Some(order[i])
  {
    assert order[i..][0] == order[i];
  }

  // ---------------------------------------------------------------------
  // The store

  /** What `clear_anchor` found. */
  datatype ClearOutcome = NotFound | NothingToClear | Cleared

  class JPMAIConfigManager {
    /** The global switch. */
    var enabled: bool
    /** The owner's user id, if one has been set. */
    var ownerId: Option<int>
    /** The API base URL and key, if set. */
    var apiUrl: Option<string>
    var apiKey: Option<string>
    /** The model name sent with every request. */
    var model: string
    /** keyword -> its record. */
    var keywords: map<string, KeywordEntry>
    /** The keywords in dict insertion order. */
    var order: seq<string>

    /** `order` lists every keyword once and nothing else, and a stored URL never ends in "/". */
    ghost predicate Valid()
      reads this
    {
      && OrderOf(order, keywords)
      && (apiUrl.Some? ==> apiUrl.value == [] || apiUrl.value[|apiUrl.value| - 1] != '/')
    }

    /** The defaults `__init__` sets before reading the file. */
    constructor()
      ensures Valid()
      ensures !enabled && ownerId.None? && apiUrl.None? && apiKey.None?
      ensures model == DefaultModel && keywords == map[] && order == []
    {
      enabled := false;
      ownerId := None;
      apiUrl := None;
      apiKey := None;
      model := DefaultModel;
      keywords := map[];
      order := [];
    }

    /** `_reset`, what a file that cannot be read leads to: every setting back to its default. */
    method Reset()
      modifies this
      ensures Valid()
      ensures !enabled && ownerId.None? && apiUrl.None? && apiKey.None?
      ensures model == DefaultModel && keywords == map[] && order == []
    {
      enabled := false;
      ownerId := None;
      apiUrl := None;
      apiKey := None;
      model := DefaultModel;
      keywords := map[];
      order := [];
    }

    /** `keywords[keyword] = e` on the insertion-ordered dict: an existing keyword keeps
        its place, a new one goes to the end. */
    method Put(keyword: string, e: KeywordEntry)
      requires Valid()
      modifies this
      ensures Valid()
      ensures keywords == old(keywords)[keyword := e]
      ensures order == if keyword in old(keywords) then old(order) else old(order) + [keyword]
      ensures enabled == old(enabled) && ownerId == old(ownerId)
      ensures apiUrl == old(apiUrl) && apiKey == old(apiKey) && model == old(model)
    {
      if keyword in keywords {
        OrderUpdate(order, keywords, keyword, e);
      } else {
        OrderAppend(order, keywords, keyword, e);
        order := order + [keyword];
      }
      keywords := keywords[keyword := e];
    }

    /** `add_keyword`: a blank keyword or a negative limit is refused and nothing changes.
        Otherwise the keyword's target and limit are set; a keyword already present keeps
        its switch and its anchor (an absent anchor comes back as None), a new one is
        switched on with a None anchor and goes to the end of the order. */
    method AddKeyword(keyword: string, targetUserId: int, targetChatId: int, rateLimit: int)
      returns (err: Option<ConfigError>)
      requires Valid()
      modifies this
      ensures Valid()
      ensures err == ValidateKeyword(keyword, rateLimit)
      ensures err.Some? ==> keywords == old(keywords) && order == old(order)
      ensures err.None? && keyword in old(keywords) ==>
                keywords == old(keywords)[keyword := KeywordEntry(targetUserId, targetChatId, rateLimit,
                                                                  Held(AnchorOf(old(keywords)[keyword].anchor)),
                                                                  old(keywords)[keyword].enabled)]
                && order == old(order)
      ensures err.None? && keyword !in old(keywords) ==>
                keywords == old(keywords)[keyword := KeywordEntry(targetUserId, targetChatId, rateLimit, Held(None), true)]
                && order == old(order) + [keyword]
      ensures enabled == old(enabled) && ownerId == old(ownerId)
      ensures apiUrl == old(apiUrl) && apiKey == old(apiKey) && model == old(model)
    {
      err := ValidateKeyword(keyword, rateLimit);
      if err.Some? {
        return;
      }
      var e := if keyword in keywords
               then KeywordEntry(targetUserId, targetChatId, rateLimit,
                                 Held(AnchorOf(keywords[keyword].anchor)), keywords[keyword].enabled)
               else KeywordEntry(targetUserId, targetChatId, rateLimit, Held(None), true);
      Put(keyword, e);
    }

    /** `set_anchor`: an unknown keyword is an error and nothing changes; otherwise that
        keyword's anchor becomes the id, and nothing else changes. */
    method SetAnchor(keyword: string, anchorId: int) returns (err: Option<ConfigError>)
      requires Valid()
      modifies this
      ensures Valid()
      ensures err.Some? <==> keyword !in old(keywords)
      ensures err.Some? ==> err.value == UnknownKeyword && keywords == old(keywords)
      ensures err.None? ==> keywords == old(keywords)[keyword := old(keywords)[keyword].(anchor := Held(Some(anchorId)))]
      ensures order == old(order) && enabled == old(enabled) && ownerId == old(ownerId)
      ensures apiUrl == old(apiUrl) && apiKey == old(apiKey) && model == old(model)
    {
      if keyword !in keywords {
        return Some(UnknownKeyword);
      }
      keywords := keywords[keyword := keywords[keyword].(anchor := Held(Some(anchorId)))];
      err := None;
    }

    /** `get_anchor`: the keyword's anchor id; None for an unknown keyword, a cleared
        anchor or one never set. */
    function GetAnchor(keyword: string): (a: Option<int>)
      reads this
      ensures a.Some? <==> keyword in keywords && keywords[keyword].anchor.Held? && keywords[keyword].anchor.id.Some?
      ensures a.Some? ==> keywords[keyword].anchor == Held(a)
    {
      if keyword in keywords then AnchorOf(keywords[keyword].anchor) else None
    }

    /** `clear_anchor`: an unknown keyword is an error; a record that still has the anchor
        key (even with None in it) loses it; a record without it is reported and left
        alone. Nothing else changes. */
    method ClearAnchor(keyword: string) returns (r: ClearOutcome)
      requires Valid()
      modifies this
      ensures Valid()
      ensures r == NotFound <==> keyword !in old(keywords)
      ensures r == Cleared <==> keyword in old(keywords) && old(keywords)[keyword].anchor.Held?
      ensures r == Cleared ==> keywords == old(keywords)[keyword := old(keywords)[keyword].(anchor := Missing)]
      ensures r != Cleared ==> keywords == old(keywords)
      ensures order == old(order) && enabled == old(enabled) && ownerId == old(ownerId)
      ensures apiUrl == old(apiUrl) && apiKey == old(apiKey) && model == old(model)
    {
      if keyword !in keywords {
        return NotFound;
      }
      if keywords[keyword].anchor.Held? {
        keywords := keywords[keyword := keywords[keyword].(anchor := Missing)];
        return Cleared;
      }
      return NothingToClear;
    }

    /** `delete_keyword`: reports whether the keyword was there, and removes it, from the
        records and from the order, and nothing else. */
    method DeleteKeyword(keyword: string) returns (deleted: bool)
      requires Valid()
      modifies this
      ensures Valid()
      ensures deleted <==> keyword in old(keywords)
      ensures keywords == old(keywords) - {keyword}
      ensures order == Without(old(order), keyword)
      ensures enabled == old(enabled) && ownerId == old(ownerId)
      ensures apiUrl == old(apiUrl) && apiKey == old(apiKey) && model == old(model)
    {
      deleted := keyword in keywords;
      OrderRemove(order, keywords, keyword);
      keywords := keywords - {keyword};
      order := Without(order, keyword);
    }

    /** `set_keyword_status`: an unknown keyword is an error and nothing changes;
        otherwise only that keyword's switch is set. */
    method SetKeywordStatus(keyword: string, on: bool) returns (ok: bool)
      requires Valid()
      modifies this
      ensures Valid()
      ensures ok <==> keyword in old(keywords)
      ensures ok ==> keywords == old(keywords)[keyword := old(keywords)[keyword].(enabled := on)]
      ensures !ok ==> keywords == old(keywords)
      ensures order == old(order) && enabled == old(enabled) && ownerId == old(ownerId)
      ensures apiUrl == old(apiUrl) && apiKey == old(apiKey) && model == old(model)
    {
      ok := keyword in keywords;
      if ok {
        keywords := keywords[keyword := keywords[keyword].(enabled := on)];
      }
    }

    /** `set_api`: the URL is stored without its trailing slashes, the key as given, and the
        model is replaced only by a non-empty name. */
    method SetApi(url: string, key: string, newModel: Option<string>)
      requires Valid()
      modifies this
      ensures Valid()
      ensures apiUrl.Some? && |apiUrl.value| <= |url| && apiUrl.value == url[..|apiUrl.value|]
      ensures forall i :: |apiUrl.value| <= i < |url| ==> url[i] == '/'
      ensures apiKey == Some(key)
      ensures model == if newModel.Some? && newModel.value != [] then newModel.value else old(model)
      ensures keywords == old(keywords) && order == old(order)
      ensures enabled == old(enabled) && ownerId == old(ownerId)
    {
      apiUrl := Some(RStripChar(url, '/'));
      apiKey := Some(key);
      if newModel.Some? && newModel.value != [] {
        model := newModel.value;
      }
    }

    /** `set_model`: a blank name is refused and nothing changes; otherwise the name is
        stored stripped. */
    method SetModel(name: string) returns (ok: bool)
      requires Valid()
      modifies this
      ensures Valid()
      ensures ok <==> !IsBlank(name)
      ensures ok ==> model == Strip(name) && model != []
      ensures !ok ==> model == old(model)
      ensures keywords == old(keywords) && order == old(order)
      ensures enabled == old(enabled) && ownerId == old(ownerId)
      ensures apiUrl == old(apiUrl) && apiKey == old(apiKey)
    {
      if IsBlank(name) {
        return false;
      }
      model := Strip(name);
      ok := true;
    }

    /** `is_api_configured`: both the URL and the key are set and non-empty. */
    predicate IsApiConfigured()
      reads this
    {
      apiUrl.Some? && apiUrl.value != [] && apiKey.Some? && apiKey.value != []
    }

    /** `get_generator`: a generator exactly when the API is configured, built from the
        stored URL, key and model; in a valid store its URL is the stored URL. */
    function GetGenerator(): (g: Option<AIGenerator>)
      reads this
      ensures g.Some? <==> IsApiConfigured()
      ensures g.Some? ==> g.value.apiKey == apiKey.value && g.value.model == model
      ensures g.Some? && (apiUrl.value[|apiUrl.value| - 1] != '/') ==> g.value.apiUrl == apiUrl.value
    {
      if IsApiConfigured() then
        MakeGeneratorStable(apiUrl.value, apiKey.value, model);
        Some(MakeGenerator(apiUrl.value, apiKey.value, model))
      else None
    }

    /** `track_anchor_messages`: a message in a group chat (negative id) from a known sender
        becomes the anchor of the first keyword, in insertion order, that targets this
        sender in this chat; no other keyword and nothing else changes. */
    method TrackAnchor(chatId: int, senderId: Option<int>, messageId: int)
      requires Valid()
      modifies this
      ensures Valid()
      ensures var hit := if chatId < 0 && senderId.Some?
                         then FirstTarget(old(order), old(keywords), senderId.value, chatId) else None;
              keywords == if hit.Some?
                          then old(keywords)[hit.value := old(keywords)[hit.value].(anchor := Held(Some(messageId)))]
                          else old(keywords)
      ensures order == old(order) && enabled == old(enabled) && ownerId == old(ownerId)
      ensures apiUrl == old(apiUrl) && apiKey == old(apiKey) && model == old(model)
    {
      if chatId >= 0 || senderId.None? {
        return;
      }
      var sender := senderId.value;
      var i := 0;
      while i < |order| && !Targets(keywords, order[i], sender, chatId)
        modifies {}
        invariant 0 <= i <= |order|
        invariant FirstTarget(order, keywords, sender, chatId) == FirstTarget(order[i..], keywords, sender, chatId)
      {
        FirstTargetSkip(order, keywords, sender, chatId, i);
        i := i + 1;
      }
      if i < |order| {
        FirstTargetHere(order, keywords, sender, chatId, i);
        Put(order[i], keywords[order[i]].(anchor := Held(Some(messageId))));
      } else {
        assert order[i..] == [];
      }
    }

    /** `enable_feature`: refused without permission, then refused while the API is not
        configured; otherwise the plugin is switched on. `hasKeywords` picks the reply. */
    method Enable(senderId: int) returns (r: EnableOutcome)
      modifies this
      ensures r.Enabled? <==> CheckPermission(old(ownerId), senderId) && old(IsApiConfigured())
      ensures r == NotPermitted <==> !CheckPermission(old(ownerId), senderId)
      ensures r.Enabled? ==> (r.hasKeywords <==> old(keywords) != map[])
      ensures enabled == (r.Enabled? || old(enabled))
      ensures keywords == old(keywords) && order == old(order) && ownerId == old(ownerId)
      ensures apiUrl == old(apiUrl) && apiKey == old(apiKey) && model == old(model)
    {
      if !CheckPermission(ownerId, senderId) {
        return NotPermitted;
      }
      if !IsApiConfigured() {
        return ApiMissing;
      }
      enabled := true;
      r := Enabled(keywords != map[]);
    }

    /** `disable_feature`: with permission the plugin is switched off. */
    method Disable(senderId: int) returns (allowed: bool)
      modifies this
      ensures allowed == CheckPermission(old(ownerId), senderId)
      ensures enabled == (if allowed then false else old(enabled))
      ensures keywords == old(keywords) && order == old(order) && ownerId == old(ownerId)
      ensures apiUrl == old(apiUrl) && apiKey == old(apiKey) && model == old(model)
    {
      allowed := CheckPermission(ownerId, senderId);
      if allowed {
        enabled := false;
      }
    }

    /** `set_owner`: while no owner is set anyone may set one; afterwards only the owner. */
    method SetOwner(senderId: int, newOwner: int) returns (allowed: bool)
      modifies this
      ensures allowed == CheckPermission(old(ownerId), senderId)
      ensures ownerId == (if allowed then Some(newOwner) else old(ownerId))
      ensures keywords == old(keywords) && order == old(order) && enabled == old(enabled)
      ensures apiUrl == old(apiUrl) && apiKey == old(apiKey) && model == old(model)
    {
      allowed := CheckPermission(ownerId, senderId);
      if allowed {
        ownerId := Some(newOwner);
      }
    }
  }

  /** The outcome of `enable_feature`. */
  datatype EnableOutcome = NotPermitted | ApiMissing | Enabled(hasKeywords: bool)

  /** The stored API URL never ends in "/", whatever was given to `set_api`, so the
      generator is built from exactly the stored URL. */
  lemma SetApiNormalises(cfg: JPMAIConfigManager)
    requires cfg.Valid() && cfg.IsApiConfigured()
    ensures cfg.apiUrl.value[|cfg.apiUrl.value| - 1] != '/'
    ensures cfg.GetGenerator() == Some(AIGenerator(cfg.apiUrl.value, cfg.apiKey.value, cfg.model))
  {
  }

  // ---------------------------------------------------------------------
  // Commands

  /** `,jpmai delete <keyword>`: refused without permission; otherwise the keyword is
      deleted and, only when it existed, its trigger record is cleared too. */
  method DeleteCommand(cfg: JPMAIConfigManager, log: TriggerLogManager, senderId: int, keyword: string)
    returns (r: CommandResult<bool>)
    requires cfg.Valid()
    modifies cfg, log
    ensures cfg.Valid()
    ensures r == Denied <==> !CheckPermission(old(cfg.ownerId), senderId)
    ensures r == Denied ==> cfg.keywords == old(cfg.keywords) && log.logs == old(log.logs)
    ensures r.Done? ==> (r.value <==> keyword in old(cfg.keywords))
    ensures r.Done? ==> cfg.keywords == old(cfg.keywords) - {keyword}
    ensures r.Done? ==> log.logs == if r.value then old(log.logs) - {keyword} else old(log.logs)
    ensures cfg.order == if r.Done? && r.value then Without(old(cfg.order), keyword) else old(cfg.order)
    ensures cfg.enabled == old(cfg.enabled) && cfg.ownerId == old(cfg.ownerId)
    ensures cfg.apiUrl == old(cfg.apiUrl) && cfg.apiKey == old(cfg.apiKey) && cfg.model == old(cfg.model)
  {
    if !CheckPermission(cfg.ownerId, senderId) {
      return Denied;
    }
    if keyword !in cfg.keywords {
      assert keyword !in cfg.order;
      WithoutAbsent(cfg.order, keyword);
    }
    var deleted := cfg.DeleteKeyword(keyword);
    if deleted {
      log.ClearKeyword(keyword);
    }
    r := Done(deleted);
  }

  /** `toggle_keyword_status`: refused without permission; otherwise the keyword's switch
      is set when the keyword exists. */
  method ToggleCommand(cfg: JPMAIConfigManager, senderId: int, keyword: string, on: bool)
    returns (r: CommandResult<bool>)
    requires cfg.Valid()
    modifies cfg
    ensures cfg.Valid()
    ensures r == Denied <==> !CheckPermission(old(cfg.ownerId), senderId)
    ensures r.Done? ==> (r.value <==> keyword in old(cfg.keywords))
    ensures r.Done? && r.value ==> cfg.keywords == old(cfg.keywords)[keyword := old(cfg.keywords)[keyword].(enabled := on)]
    ensures !(r.Done? && r.value) ==> cfg.keywords == old(cfg.keywords)
    ensures cfg.order == old(cfg.order) && cfg.enabled == old(cfg.enabled) && cfg.ownerId == old(cfg.ownerId)
    ensures cfg.apiUrl == old(cfg.apiUrl) && cfg.apiKey == old(cfg.apiKey) && cfg.model == old(cfg.model)
  {
    if !CheckPermission(cfg.ownerId, senderId) {
      return Denied;
    }
    var ok := cfg.SetKeywordStatus(keyword, on);
    r := Done(ok);
  }

  // ---------------------------------------------------------------------
  // The trigger listener

  /** What `trigger_jpmai` does with a message, up to the network calls. Only a parsed
      `/keyword` that is configured, sent in the keyword's chat, while the plugin and the
      keyword are on and the API is configured, by a sender with a non-zero id, is
      considered; then the cooldown decides; then the reply mode. */
  function PlanTrigger(cfg: JPMAIConfigManager, log: TriggerLogManager, msg: Message, now: int): (p: Plan)
    reads cfg, log
    ensures ParseTrigger(msg.text).None? ==> p == Ignore
    ensures p != Ignore ==>
              var t := ParseTrigger(msg.text).value;
              && t.keyword in cfg.keywords
              && msg.chatId == cfg.keywords[t.keyword].targetChatId
              && cfg.enabled && cfg.keywords[t.keyword].enabled && cfg.IsApiConfigured()
              && msg.from.Some? && msg.from.value.id != 0
    ensures (ParseTrigger(msg.text).Some?
             && var t := ParseTrigger(msg.text).value;
             && t.keyword in cfg.keywords
             && msg.chatId == cfg.keywords[t.keyword].targetChatId
             && cfg.enabled && cfg.keywords[t.keyword].enabled && cfg.IsApiConfigured()
             && msg.from.Some? && msg.from.value.id != 0) ==> p != Ignore
    ensures p.Throttled? ==> p.wait > 0 && !IsOwner(cfg.ownerId, msg.from.value.id)
    ensures p.Respond? ==> p.keyword == ParseTrigger(msg.text).value.keyword
                           && p.mode == ChooseMode(ParseTrigger(msg.text).value, msg.replyTo)
    ensures p != Ignore && IsOwner(cfg.ownerId, msg.from.value.id) ==> p.Respond?
  {
    match ParseTrigger(msg.text)
    case None => Ignore
    case Some(t) =>
      if t.keyword !in cfg.keywords then Ignore
      else
        var e := cfg.keywords[t.keyword];
        if msg.chatId != e.targetChatId || !cfg.enabled || !e.enabled || !cfg.IsApiConfigured() then Ignore
        else if msg.from.None? || msg.from.value.id == 0 then Ignore
        else
          var d := log.CanTrigger(t.keyword, IsOwner(cfg.ownerId, msg.from.value.id), Some(e.rateLimitSeconds), now);
          if !d.allowed then Throttled(d.wait.value)
          else Respond(t.keyword, ChooseMode(t, msg.replyTo))
  }

  /** The outcome of fetching the anchor message: failed, or fetched, with or without a
      visible sender. */
  datatype Fetch = FetchFailed | Fetched(hasSender: bool)

  /** The message a reply goes to. */
  datatype TargetSource = AnchorMessage(id: int) | RecentMessage

  /** The reply target of `trigger_jpmai`: a set, non-zero anchor that could be fetched is
      used, and nothing is sent when its sender is hidden; otherwise (no anchor, or the
      fetch failed) the target user's most recent message, when one was found. */
  function ReplyTarget(anchor: AnchorSlot, fetch: Fetch, recentFound: bool): (t: Option<TargetSource>)
    ensures t.Some? && t.value.AnchorMessage? ==> AnchorOf(anchor) == Some(t.value.id) && t.value.id != 0 && fetch == Fetched(true)
    ensures (AnchorOf(anchor).None? || AnchorOf(anchor) == Some(0) || fetch.FetchFailed?) ==>
              (t.Some? <==> recentFound) && (t.Some? ==> t.value == RecentMessage)
    ensures AnchorOf(anchor).Some? && AnchorOf(anchor).value != 0 && fetch.Fetched? ==>
              (t.Some? <==> fetch.hasSender)
  {
    var a := AnchorOf(anchor);
    if a.Some? && a.value != 0 && fetch.Fetched? then
      if fetch.hasSender then Some(AnchorMessage(a.value)) else None
    else if recentFound then Some(RecentMessage)
    else None
  }

  /** A reply that went out: the generation asked for and the message it answered. */
  datatype Sent = Sent(mode: Mode, target: TargetSource)

  /** `trigger_jpmai` end to end. `fetch` and `recentFound` are the results of the two
      message lookups and `delivered` whether the reply went through; the text itself
      comes from the API. A reply goes out and the keyword's time is recorded exactly
      when the plan is to respond, a target message exists and the reply was delivered. */
  method TriggerJpmai(cfg: JPMAIConfigManager, log: TriggerLogManager, msg: Message, now: int,
                      fetch: Fetch, recentFound: bool, delivered: bool)
    returns (sent: Option<Sent>)
    modifies log
    ensures var p := old(PlanTrigger(cfg, log, msg, now));
            && (sent.Some? <==> p.Respond? && ReplyTarget(cfg.keywords[p.keyword].anchor, fetch, recentFound).Some? && delivered)
            && (sent.Some? ==> sent.value == Sent(p.mode, ReplyTarget(cfg.keywords[p.keyword].anchor, fetch, recentFound).value))
            && log.logs == if sent.Some? then old(log.logs)[p.keyword := now] else old(log.logs)
  {
    var p := PlanTrigger(cfg, log, msg, now);
    if !p.Respond? {
      return None;
    }
    var target := ReplyTarget(cfg.keywords[p.keyword].anchor, fetch, recentFound);
    if target.None? || !delivered {
      return None;
    }
    log.RecordTrigger(p.keyword, now);
    sent := Some(Sent(p.mode, target.value));
  }

  /** A keyword that is switched off, or a store without an API configured, is never
      answered, whoever sends it and whatever the cooldown says. */
  lemma SwitchedOffIsSilent(cfg: JPMAIConfigManager, log: TriggerLogManager, msg: Message, now: int)
    requires ParseTrigger(msg.text).Some?
    requires var k := ParseTrigger(msg.text).value.keyword;
             (k in cfg.keywords && !cfg.keywords[k].enabled) || !cfg.IsApiConfigured()
    ensures PlanTrigger(cfg, log, msg, now) == Ignore
  {
  }
}
