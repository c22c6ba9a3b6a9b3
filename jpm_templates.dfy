/**
 * The jpm plugin's template table and its `generate_dual`. Its single replies use
 * the shared `generate_single`; its dual replies put the keyword in `{name}` and the
 * second name in `{target}`.
 */
module JpmTemplates {
  import opened PyStr
  import opened Templates

  // The template texts, each written as its placeholders and the literal text
  // between them.

  /** The 21 single texts, ids 1-21 in table order. */
  const SingleTexts: seq<string> := [
    "大家能教教" + "{name}" + " 怎么骂人喵\n\n每次骂人" + "{name}" + " 都觉得不好意思\n\n捏紧了拳头👊\n\n憋红了脸😳\n\n最后只能小声地说一句\n\n你坏死了喵😻",
    "夜深风轻，烛影摇曳，" + "{name}" + " 静坐窗前，指尖轻抚茶杯边缘，心中翻涌着一丝丝悄悄的热意。眼神望向空无一人的暗角，却仿佛看见了心底的渴望在跳动，轻轻、温柔、又不可抵挡。每一次呼吸，都像与夜色缠绵无声，却让身体悄悄回应。",
    "风吹窗纱，月色洒肩，" + "{name}" + " 躺在榻上，任思绪如轻雾般缠绕全身。心里那股悄悄翻涌的欢愉，让呼吸都带上甜味。夜静而人心乱，仿佛连空气都懂得心跳，轻轻在耳边低语，暗示着未曾触碰的渴望。",
    "{name}" + " 手握书卷，却读不进去一字一句。烛光摇曳，倒映在眼里，像心底涌动的暗流。呼吸微微沉重，每一次心跳都似被夜色拉长，像有看不见的手，轻轻挑动每一寸敏感的神经，让夜晚比白昼更热烈。",
    "月色柔和，风吹檐角，" + "{name}" + " 斜靠在窗前，肩头洒落斑驳光影。思绪偷偷翻滚，像悄悄触碰了身体的每一根神经。心里的渴望像暗潮般涌起，呼吸也随之轻重起伏，微不可闻，却让整个人像被夜色温柔包裹。",
    "屋内静寂，烛火半斜，" + "{name}" + " 一杯茶在手，却觉空气里满是未曾触碰的热意。指尖无意滑过桌面，心却轻轻荡漾。思绪像风一样穿过夜色，悄悄探入身体每一寸空隙，轻柔，却充满诱惑。",
    "深夜无人，" + "{name}" + " 躺在榻上，眼神望向天花板，心里却已在另一片光影中漂浮。身体虽静，心却波涛汹涌，每一次呼吸都像被无形的手轻抚，温热而不声张，暗暗唤动最深的渴望。",
    "风轻轻摇动窗帘，烛火映照脸庞，" + "{name}" + " 低眉沉思，心中微微颤动。像是空气里悄悄溶入了渴望，指尖轻轻触碰衣角，心却早已走向夜色里最温柔的角落，让夜晚的温度升高。",
    "{name}" + " 静坐窗前，茶香袅袅，心里暗暗翻腾。每一次呼吸，都像与空气悄悄缠绕。月色透过玻璃洒在肩头，像有人轻轻触碰，又像整个夜晚都被心里的热意包裹。",
    "烛火跳动，影子轻摇，" + "{name}" + " 轻抚指尖，心里的暗涌却无法停息。夜深人静，呼吸逐渐沉重，身体与心思都在悄悄回应，像夜色偷偷替他拉近了距离，让渴望在心中悄悄燃起。",
    "夜色轻柔，烛光半斜，" + "{name}" + " 倚窗而坐，眼神透着难以言说的热意。思绪翻滚如潮，悄悄在身体里生根发芽。每一次呼吸都带着微微的颤动，让整个夜晚像被心里的渴望悄悄点燃。",
    "{name}" + " 躺在榻上，月光透过窗纱洒在身上，像为他镀了一层温热的光。思绪在夜里偷偷游走，悄悄触碰每一寸敏感的神经，心跳微微加速，像在与夜色共舞。",
    "烛影摇曳，风吹窗帘，" + "{name}" + " 指尖轻抚茶杯边，心里却像有千丝万缕的悄悄缠绕。呼吸沉重又微妙，每一次心跳都像在暗中回应未曾触碰的温度，让夜晚温柔而热烈。",
    "风吹檐角，月色洒在窗台，" + "{name}" + " 斜靠而坐，心思暗暗生动。像有无形的手轻轻挑动每一根神经，呼吸轻重起伏，夜色也似乎被悄悄拉近，让身体与思绪交错温热。",
    "{name}" + " 端坐榻上，烛光半斜，指尖无意滑过桌面。思绪偷偷探向心底最深的渴望，微微颤动，像有人轻抚，又像整个夜晚都在回应他隐秘的热意。",
    "夜深人静，风轻轻吹动窗纱，" + "{name}" + " 躺卧榻上，眼神远望。心中暗潮汹涌，每一次呼吸都像被夜色轻抚，微热而悄悄引动每一寸肌理，让渴望在无声中升腾。",
    "烛火半斜，香气微熏，" + "{name}" + " 静坐一隅，眼神迷离。思绪像风一样穿梭全身，每一次微微的呼吸都悄悄回应心底最隐秘的欲望，让夜晚温柔却热烈。",
    "风轻轻吹动窗帘，月色洒在榻上，" + "{name}" + " 心里暗暗翻腾。像空气里潜入了悄悄的渴望，每一次呼吸都带着微热的颤动，让夜晚像被秘密轻轻点燃。",
    "{name}" + " 静卧窗前，茶香袅袅，心中暗涌如水。每一次呼吸都像在悄悄回应夜色，像有人轻轻触碰每一寸敏感的神经，让心跳随着思绪跳动。",
    "夜深人静，烛影摇曳，" + "{name}" + " 静坐窗前，指尖轻触桌面。思绪悄悄翻涌，心底的渴望像暗潮般生动，每一次呼吸都轻轻回应夜色的温柔，像秘密在悄悄蔓延。",
    "{name}" + " 静卧榻上，风吹窗纱发出轻响，心却已像火焰般翻滚。思绪偷偷探向身体的每一寸神经，每一次微动都像有人轻抚，暗示着未曾触碰的温度，让夜晚温柔又热烈。"
  ]

  /** The 20 dual texts, ids 101-120 in table order. */
  const DualTexts: seq<string> := [
    "茶香未散，话还未起，" + "{name}" + " 偷眼看 " + "{target}" + "，只觉月色都柔软起来。旁人尚能端坐，唯 " + "{name}" + " 与 " + "{target}" + " 早已暗生情思，心跳轻轻对撞，却又装作若无其事。",
    "烛光摇曳，帘影轻动，" + "{name}" + " 与 " + "{target}" + " 坐对，言语平淡如水，眼神却暗暗交锋。风吹入室，像替两人轻轻挑动心弦，让旁人看去，只道这是寻常寒暄。",
    "风吹檐角，月色斜洒，" + "{name}" + " 的目光落在 " + "{target}" + " 肩头，暗暗笑了。" + "{target}" + " 偏偏眼角微挑，心里暗自明白：此番交谈，已不只关乎言语。",
    "人前 " + "{name}" + " 端坐如君子，" + "{target}" + " 神色若无其事；\n人后风波已起，二人心思暗暗较劲，笑意轻轻流动，像夜色替他们低声作证。",
    "一杯茶落地聲，烛影斜照，" + "{name}" + " 微微靠近 " + "{target}" + "，指尖轻触桌面，却仿佛撩动了空气里最柔软的热意。旁人尚未察觉，风月却暗暗作伴。",
    "夜深无声，" + "{name}" + " 与 " + "{target}" + " 交谈间，眼神早已彼此交换暗号。每一次呼吸都像轻轻互试分寸，话虽平常，心已翻腾，旁观者自会偷笑。",
    "风吹窗纱，烛影摇曳，" + "{name}" + " 偷看 " + "{target}" + " 时，心里暗暗痒。" + "{target}" + " 微微侧身，眼波一转，心中早已明白，这夜色里，两人各自藏着一段小秘密。",
    "茶未凉，话未尽，" + "{name}" + " 与 " + "{target}" + " 眉目之间暗藏波澜。轻轻一笑，如风轻拂过心田，旁人尚在闲谈，却不知他们的心已悄悄缠绕。",
    "烛火半斜，影子晃动，" + "{name}" + " 与 " + "{target}" + " 静坐，指尖轻轻摩挲桌面。旁人只觉两人沉默，却不知沉默下是暗潮汹涌，心思交错比言语更难防。",
    "夜色温柔，" + "{name}" + " 偷眼看向 " + "{target}" + "，月光下两人影子交错。风吹帘动，仿佛替他们轻轻撩动心弦，心思已悄悄越界，却仍笑作若无其事。",
    "人前 " + "{name}" + " 言辞稳重，" + "{target}" + " 神色淡然；\n人后二人心思暗生，一言一笑间，仿佛整座屋子都被无声的热意缠绕。",
    "风未起，月色未深，" + "{name}" + " 与 " + "{target}" + " 的目光却暗暗交错。茶香绕指，烛影摇曳，二人心思像暗潮一般涌动，旁人看去，不过是一场寻常寒暄。",
    "话未及口，心已飞远。" + "{name}" + " 偏眼看 " + "{target}" + " 一眼，心跳轻轻加速。旁人尚未察觉，风月早已在暗中作伴，将二人的秘密轻轻推开。",
    "夜深人静，" + "{name}" + " 与 " + "{target}" + " 交谈，言辞平淡，眉眼却暗暗调情。风吹进屋，像替两人拉近距离，让夜色也偷偷参与他们的心事。",
    "烛影斜照，" + "{name}" + " 手轻触茶杯边，目光落在 " + "{target}" + " 身上。微微的心动像悄悄传染了空气，旁人只觉平静，其实暗潮早已翻滚。",
    "月色透窗，风吹檐角，" + "{name}" + " 与 " + "{target}" + " 对坐如画。微微的呼吸互相碰触，心思暗暗较劲，笑意却都藏在眼底，旁人看去不过是夜深闲坐。",
    "茶香袅袅，烛火微摇，" + "{name}" + " 与 " + "{target}" + " 心思如暗潮轻轻起伏。轻声交谈间，彼此眼神中已有万千暗示，旁观者只道两人沉静如常。",
    "夜深风轻，" + "{name}" + " 偏头望向 " + "{target}" + "，微微一笑。" + "{target}" + " 亦眉眼含笑，心里早已悄悄明白：此夜，二人各自心里暗暗燃起火焰。",
    "人前端坐如常，" + "{name}" + " 与 " + "{target}" + " 心思却暗暗较劲。每一次目光相接，像是在互相试探，旁人只觉两人沉默，实则暗潮翻涌，比言语更撩人。",
    "烛火跳动，风吹帘角，" + "{name}" + " 与 " + "{target}" + " 目光轻轻交错。心思暗生，呼吸微微加重，仿佛夜色都替他们低语，旁观者只能偷偷笑叹，明白又不得说破。"
  ]

  /** `TEMPLATES_DATA["templates"]`: ids 1-21 single, then ids 101-120 dual. */
  const Table: seq<Template> := MakeTable(SingleTexts, DualTexts)

  /** The table splits into the 21 single texts and the 20 dual texts, in table order. */
  lemma TablePools()
    ensures Pools(Table) == Generator(SingleTexts, DualTexts)
    ensures |Pools(Table).singles| == 21 && |Pools(Table).duals| == 20
  {
    MakeTablePools(SingleTexts, DualTexts);
  }

  /** `TemplateGenerator()`: the constructor's load leaves 21 single and 20 dual templates. */
  method NewGenerator() returns (g: Generator)
    ensures g.singles == SingleTexts && g.duals == DualTexts
    ensures |g.singles| == 21 && |g.duals| == 20
  {
    g := LoadTemplates(Table);
    TablePools();
  }

  /** The generator the plugin builds once at import. */
  const Loaded := Generator(SingleTexts, DualTexts)

  /** The dual-reply fallback, used only when the dual pool is empty. */
  function DualFallback(keyword: string, targetUser: string): string {
    keyword + " 和 " + targetUser + " 的故事"
  }

  /** `generate_dual(keyword, target_user)`: the fallback when the dual pool is empty;
      otherwise dual template `choice` with every `{name}` replaced by the keyword, then
      every `{target}` by the second name. A template without either placeholder comes
      back as it is. */
  function GenerateDual(g: Generator, keyword: string, targetUser: string, choice: nat): (r: string)
    requires g.duals != [] ==> choice < |g.duals|
    ensures g.duals == [] ==> r == DualFallback(keyword, targetUser)
    ensures (g.duals != [] && !Contains(g.duals[choice], "{name}")
             && !Contains(g.duals[choice], "{target}")) ==> r == g.duals[choice]
  {
    if g.duals == [] then
      DualFallback(keyword, targetUser)
    else
      Replace(Replace(g.duals[choice], "{name}", keyword), "{target}", targetUser)
  }

  /** The second replacement also runs over the keyword put in by the first: a keyword
      `<a>{target}` comes back from `{name}<mid>{target}` as `<a>` and the second name,
      not as typed. */
  lemma KeywordRewritten(a: string, mid: string, target: string)
    requires '{' !in a && '{' !in mid
    ensures GenerateDual(Generator([], ["{name}" + mid + "{target}"]), a + "{target}", target, 0)
            == a + target + mid + target
  {
    DualPlaceholders();
    FirstPass("{name}", mid, "{target}", a + "{target}");
    SecondPass(a, "{target}", mid, target);
  }

  /** The two dual placeholders are placeholders and cannot be mistaken for each other. */
  lemma DualPlaceholders()
    ensures IsPlaceholder("{name}") && IsPlaceholder("{target}")
    ensures Apart("{name}", "{target}") && Apart("{target}", "{name}")
  {
    assert "{name}"[1..] == "name}" && "{target}"[1..] == "target}";
  }

  /** A dual template made of literal text and `{name}` / `{target}` holes: the reply
      has the keyword in every `{name}` hole and the second name in every `{target}`
      hole, and the literal text unchanged, for a keyword without '{'. */
  lemma DualFills(g: Generator, ps: seq<Piece>, keyword: string, target: string, choice: nat)
    requires choice < |g.duals| && g.duals[choice] == Render(ps)
    requires WellFormed(ps) && HolesIn(ps, {"{name}", "{target}"}) && '{' !in keyword
    ensures GenerateDual(g, keyword, target, choice)
            == Render(Fill(Fill(ps, "{name}", keyword), "{target}", target))
  {
    DualPlaceholders();
    var once := Fill(ps, "{name}", keyword);
    assert OthersApart(ps, "{name}") by {
      forall i | 0 <= i < |ps| && ps[i].Hole? && ps[i].key != "{name}"
        ensures Apart("{name}", ps[i].key)
      {
        assert ps[i].key == "{target}";
      }
    }
    assert HolesIn(once, {"{target}"});
    FillTwice(ps, "{name}", keyword, "{target}", target);
  }
}
