/**
 * The catchup plugin's template table and its `generate_dual`. Its single replies
 * use the shared `generate_single`; its dual replies name both the sender and
 * the target through `{trigger_user}` and `{target_user}`.
 */
module CatchupTemplates {
  import opened PyStr
  import opened Templates

  // The template texts, each written as its placeholders and the literal text
  // between them.

  const SingleTexts: seq<string> := [
    "{name}" + " 正在看着你",
    "{name}" + " 收到了一条神秘消息",
    "有人在呼唤 " + "{name}",
    "{name}" + " 的名字被提及了",
    "{name}" + " 突然感觉背后一凉"
  ]

  const DualTexts: seq<string> := [
    "{trigger_user}" + " 向 " + "{target_user}" + " 发送了信号",
    "{trigger_user}" + " 正在寻找 " + "{target_user}",
    "{target_user}" + " 收到 " + "{trigger_user}" + " 的消息",
    "{trigger_user}" + " 呼唤了 " + "{target_user}",
    "{trigger_user}" + " 对 " + "{target_user}" + " 说：在吗"
  ]

  /** `TEMPLATES_DATA["templates"]`: ids 1-5 single, then ids 101-105 dual. */
  const Table: seq<Template> := MakeTable(SingleTexts, DualTexts)

  /** The table splits into the five single texts and the five dual texts, in order. */
  lemma TablePools()
    ensures Pools(Table) == Generator(SingleTexts, DualTexts)
  {
    MakeTablePools(SingleTexts, DualTexts);
  }

  /** `TemplateGenerator()`: the constructor's load leaves 5 single and 5 dual templates. */
  method NewGenerator() returns (g: Generator)
    ensures g.singles == SingleTexts && g.duals == DualTexts
    ensures |g.singles| == 5 && |g.duals| == 5
  {
    g := LoadTemplates(Table);
    TablePools();
  }

  /** The generator the plugin builds once at import. */
  const Loaded := Generator(SingleTexts, DualTexts)

  /** The dual-reply fallback, used only when the dual pool is empty. */
  function DualFallback(triggerUser: string, targetUser: string): string {
    triggerUser + " 向 " + targetUser + " 发送了消息"
  }

  /** `generate_dual(trigger_user, target_user)`: the fallback when the dual pool is
      empty; otherwise dual template `choice` with every `{trigger_user}`, then every
      `{target_user}` replaced. A template without either placeholder comes back as it is. */
  function GenerateDual(g: Generator, triggerUser: string, targetUser: string, choice: nat): (r: string)
    requires g.duals != [] ==> choice < |g.duals|
    ensures g.duals == [] ==> r == DualFallback(triggerUser, targetUser)
    ensures (g.duals != [] && !Contains(g.duals[choice], "{trigger_user}")
             && !Contains(g.duals[choice], "{target_user}")) ==> r == g.duals[choice]
  {
    if g.duals == [] then
      DualFallback(triggerUser, targetUser)
    else
      Replace(Replace(g.duals[choice], "{trigger_user}", triggerUser), "{target_user}", targetUser)
  }

  // ----------------------------------------------------------------------
  // What each reply says, for names without '{'.

  /** The single replies, written out. */
  function SingleReplyText(name: string, choice: nat): string
    requires choice < 5
  {
    [ name + " 正在看着你",
      name + " 收到了一条神秘消息",
      "有人在呼唤 " + name,
      name + " 的名字被提及了",
      name + " 突然感觉背后一凉" ][choice]
  }

  /** Every single reply from the loaded pool: the name in its place, nothing else changed. */
  lemma SingleReplies(name: string, choice: nat)
    requires '{' !in name && choice < 5
    ensures GenerateSingle(Loaded, name, choice) == SingleReplyText(name, choice)
  {
    var t := SingleTexts[choice];
    if choice == 2 {
      FillBack("有人在呼唤 ", "{name}", name);
      ReplaceNoBrace("有人在呼唤 " + name, "{target_user}", name);
    } else {
      var after := [" 正在看着你", " 收到了一条神秘消息", "", " 的名字被提及了", " 突然感觉背后一凉"][choice];
      assert t == "{name}" + after;
      FillFront(after, "{name}", name);
      ReplaceNoBrace(name + after, "{target_user}", name);
    }
  }

  /** The dual replies, written out. */
  function DualReplyText(sender: string, target: string, choice: nat): string
    requires choice < 5
  {
    [ sender + " 向 " + target + " 发送了信号",
      sender + " 正在寻找 " + target,
      target + " 收到 " + sender + " 的消息",
      sender + " 呼唤了 " + target,
      sender + " 对 " + target + " 说：在吗" ][choice]
  }

  /** The two dual placeholders are placeholders and cannot be mistaken for each other. */
  lemma DualPlaceholders()
    ensures IsPlaceholder("{trigger_user}") && IsPlaceholder("{target_user}")
    ensures Apart("{trigger_user}", "{target_user}") && "{trigger_user}" != "{target_user}"
  {
    assert "{trigger_user}"[1..] == "trigger_user}" && "{target_user}"[1..] == "target_user}";
    assert "{trigger_user}"[2] != "{target_user}"[2];
  }

  /** The second replacement also runs over the sender put in by the first: a sender
      `<a>{target_user}` comes back from `{trigger_user}<mid>{target_user}` as `<a>` and
      the target's name, not as given. */
  lemma SenderRewritten(a: string, mid: string, target: string)
    requires '{' !in a && '{' !in mid
    ensures GenerateDual(Generator([], ["{trigger_user}" + mid + "{target_user}"]), a + "{target_user}", target, 0)
            == a + target + mid + target
  {
    DualPlaceholders();
    FirstPass("{trigger_user}", mid, "{target_user}", a + "{target_user}");
    SecondPass(a, "{target_user}", mid, target);
  }

  /** The literal text of the dual templates holds no '{'. */
  lemma DualLiterals()
    ensures '{' !in " 向 " && '{' !in " 发送了信号" && '{' !in " 正在寻找 "
    ensures '{' !in " 收到 " && '{' !in " 的消息" && '{' !in " 呼唤了 "
    ensures '{' !in " 对 " && '{' !in " 说：在吗"
  {
  }

  /** Every dual reply from the loaded pool names the sender and the target in their
      places, with nothing else changed, for a sender name without '{'. */
  lemma DualReplies(sender: string, target: string, choice: nat)
    requires '{' !in sender && choice < 5
    ensures GenerateDual(Loaded, sender, target, choice) == DualReplyText(sender, target, choice)
  {
    DualPlaceholders();
    DualLiterals();
    var t := DualTexts[choice];
    var r := DualReplyText(sender, target, choice);
    assert GenerateDual(Loaded, sender, target, choice)
           == Replace(Replace(t, "{trigger_user}", sender), "{target_user}", target);
    if choice == 0 {
      assert t == "{trigger_user}" + " 向 " + "{target_user}" + " 发送了信号";
      assert r == sender + " 向 " + target + " 发送了信号";
      FillFirstLeading("{trigger_user}", " 向 ", "{target_user}", " 发送了信号", sender, target);
    } else if choice == 1 {
      assert t == "{trigger_user}" + " 正在寻找 " + "{target_user}";
      assert r == sender + " 正在寻找 " + target;
      FillFirstLeadingEnd("{trigger_user}", " 正在寻找 ", "{target_user}", sender, target);
    } else if choice == 2 {
      assert t == "{target_user}" + " 收到 " + "{trigger_user}" + " 的消息";
      assert r == target + " 收到 " + sender + " 的消息";
      FillSecondLeading("{trigger_user}", " 收到 ", "{target_user}", " 的消息", sender, target);
    } else if choice == 3 {
      assert t == "{trigger_user}" + " 呼唤了 " + "{target_user}";
      assert r == sender + " 呼唤了 " + target;
      FillFirstLeadingEnd("{trigger_user}", " 呼唤了 ", "{target_user}", sender, target);
    } else {
      assert t == "{trigger_user}" + " 对 " + "{target_user}" + " 说：在吗";
      assert r == sender + " 对 " + target + " 说：在吗";
      FillFirstLeading("{trigger_user}", " 对 ", "{target_user}", " 说：在吗", sender, target);
    }
  }
}
