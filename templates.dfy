/**
 * The template generator shared by the jpm and catchup plugins (`TemplateGenerator`):
 * a fixed table is split into a single pool and a dual pool, and a reply is one
 * pool template with its placeholders replaced. The pools are filled once when the
 * generator is built and never change, so the generator is a value here; the random
 * pick is the index `choice`, supplied by the caller.
 */
module Templates {
  import opened PyStr

  /** One row of `TEMPLATES_DATA["templates"]`. */
  datatype Template = Template(id: int, mode: string, content: string)

  /** The two pools, in table order. */
  datatype Generator = Generator(singles: seq<string>, duals: seq<string>)

  /** The pools the loading loop builds from `table`: mode "single" goes to the single
      pool, every other mode to the dual pool, each in table order. Every row lands in
      exactly one pool. */
  function Pools(table: seq<Template>): (g: Generator)
    ensures |g.singles| + |g.duals| == |table|
  {
    if table == [] then
      Generator([], [])
    else
      var g := Pools(table[..|table| - 1]);
      var t := table[|table| - 1];
      if t.mode == "single" then Generator(g.singles + [t.content], g.duals)
      else Generator(g.singles, g.duals + [t.content])
  }

  /** `load_templates` run by `__init__` on empty pools: the append loop over the table. */
  method LoadTemplates(table: seq<Template>) returns (g: Generator)
    ensures g == Pools(table)
  {
    var singles: seq<string> := [];
    var duals: seq<string> := [];
    var i := 0;
    while i < |table|
      invariant 0 <= i <= |table|
      invariant Generator(singles, duals) == Pools(table[..i])
    {
      assert table[..i + 1][..i] == table[..i];
      if table[i].mode == "single" {
        singles := singles + [table[i].content];
      } else {
        duals := duals + [table[i].content];
      }
      i := i + 1;
    }
    assert table[..i] == table;
    g := Generator(singles, duals);
  }

  /** A table of the plugins' shape: the single texts with ids from 1, then the dual
      texts with ids from 101. */
  function MakeTable(singles: seq<string>, duals: seq<string>): (t: seq<Template>)
    ensures |t| == |singles| + |duals|
  {
    seq(|singles|, i requires 0 <= i < |singles| => Template(i + 1, "single", singles[i]))
    + seq(|duals|, i requires 0 <= i < |duals| => Template(101 + i, "dual", duals[i]))
  }

  /** Such a table splits back into its single texts and its dual texts, in order. */
  lemma MakeTablePools(singles: seq<string>, duals: seq<string>)
    ensures Pools(MakeTable(singles, duals)) == Generator(singles, duals)
  {
    var a := seq(|singles|, i requires 0 <= i < |singles| => Template(i + 1, "single", singles[i]));
    var b := seq(|duals|, i requires 0 <= i < |duals| => Template(101 + i, "dual", duals[i]));
    PoolsAppend(a, b);
    PoolsAllSingle(a);
    PoolsAllDual(b);
    assert seq(|a|, i requires 0 <= i < |a| => a[i].content) == singles;
    assert seq(|b|, i requires 0 <= i < |b| => b[i].content) == duals;
  }

  /** Pools of two tables one after another are the pools of each, one after another. */
  lemma {:induction false} PoolsAppend(a: seq<Template>, b: seq<Template>)
    ensures Pools(a + b) == Generator(Pools(a).singles + Pools(b).singles, Pools(a).duals + Pools(b).duals)
    decreases |b|
  {
    if b == [] {
      assert a + b == a;
    } else {
      var b' := b[..|b| - 1];
      assert (a + b)[..|a + b| - 1] == a + b';
      assert (a + b)[|a + b| - 1] == b[|b| - 1];
      PoolsAppend(a, b');
    }
  }

  /** A table whose rows are all "single" puts all of its contents, in order, in the single pool. */
  lemma {:induction false} PoolsAllSingle(table: seq<Template>)
    requires forall i :: 0 <= i < |table| ==> table[i].mode == "single"
    ensures Pools(table).singles == seq(|table|, i requires 0 <= i < |table| => table[i].content)
    ensures Pools(table).duals == []
  {
    if table != [] {
      PoolsAllSingle(table[..|table| - 1]);
    }
  }

  /** A table with no "single" row puts all of its contents, in order, in the dual pool. */
  lemma {:induction false} PoolsAllDual(table: seq<Template>)
    requires forall i :: 0 <= i < |table| ==> table[i].mode != "single"
    ensures Pools(table).duals == seq(|table|, i requires 0 <= i < |table| => table[i].content)
    ensures Pools(table).singles == []
  {
    if table != [] {
      PoolsAllDual(table[..|table| - 1]);
    }
  }

  /** The single-reply fallback, used only when the single pool is empty. */
  function SingleFallback(name: string): string {
    name + " 收到了消息"
  }

  /** `generate_single(name)`: the fallback when the single pool is empty; otherwise
      template `choice` of the single pool with every `{name}`, then every
      `{target_user}`, replaced by the name (both plugins use this exact code). A
      template without either placeholder is returned as it stands. */
  function GenerateSingle(g: Generator, name: string, choice: nat): (r: string)
    requires g.singles != [] ==> choice < |g.singles|
    ensures g.singles == [] ==> r == SingleFallback(name)
    ensures (g.singles != [] && !Contains(g.singles[choice], "{name}")
             && !Contains(g.singles[choice], "{target_user}")) ==> r == g.singles[choice]
  {
    if g.singles == [] then
      SingleFallback(name)
    else
      Replace(Replace(g.singles[choice], "{name}", name), "{target_user}", name)
  }

  // ----------------------------------------------------------------------
  // Filling a placeholder: every placeholder begins with '{', so text without '{'
  // passes through a replacement untouched.

  /** A string without '{' holds no placeholder. */
  lemma {:induction false} NoBraceNoPlaceholder(s: string, pat: string)
    requires pat != [] && pat[0] == '{' && '{' !in s
    ensures !Contains(s, pat)
    decreases |s|
  {
    if s != [] {
      assert s[0] != '{';
      NoBraceNoPlaceholder(s[1..], pat);
    }
  }

  /** Replacing inside `a + s`, where `a` has no '{', leaves `a` as it is. */
  lemma {:induction false} ReplaceSkip(a: string, s: string, pat: string, rep: string)
    requires pat != [] && pat[0] == '{' && '{' !in a
    ensures Replace(a + s, pat, rep) == a + Replace(s, pat, rep)
    decreases |a|
  {
    if a == [] {
      assert a + s == s;
    } else {
      var t := a + s;
      HeadTail(a, s);
      assert !(pat <= t) by { assert a[0] in a; }
      ReplaceStep(t, pat, rep);
      NoBraceTail(a);
      ReplaceSkip(a[1..], s, pat, rep);
      HeadTail(a, Replace(s, pat, rep));
    }
  }

  /** Where the placeholder does not start a non-empty string, a replacement copies its
      first character and goes on with the rest. */
  lemma ReplaceStep(s: string, pat: string, rep: string)
    requires pat != [] && s != [] && !(pat <= s)
    ensures Replace(s, pat, rep) == [s[0]] + Replace(s[1..], pat, rep)
  {
  }

  /** `x + y` splits into the first character of `x` and the rest. */
  lemma HeadTail(x: string, y: string)
    requires x != []
    ensures (x + y)[0] == x[0] && (x + y)[1..] == x[1..] + y
    ensures x + y == [x[0]] + (x[1..] + y)
  {
  }

  /** The tail of a string without '{' has none either. */
  lemma NoBraceTail(a: string)
    requires a != [] && '{' !in a
    ensures '{' !in a[1..]
  {
    assert forall c :: c in a[1..] ==> c in a;
  }

  /** Filling `a + pat + b`, where neither `a` nor `b` contains '{', gives `a + rep + b`. */
  lemma {:induction false} FillOne(a: string, b: string, pat: string, rep: string)
    requires pat != [] && pat[0] == '{' && '{' !in a && '{' !in b
    ensures Replace(a + pat + b, pat, rep) == a + rep + b
  {
    FillFront(b, pat, rep);
    ReplaceSkip(a, pat + b, pat, rep);
    ConcatAssoc(a, pat, b);
    ConcatAssoc(a, rep, b);
  }

  /** A pattern at the front is replaced and the scan goes on after it. */
  lemma ReplaceFront(pat: string, rest: string, rep: string)
    requires pat != []
    ensures Replace(pat + rest, pat, rep) == rep + Replace(rest, pat, rep)
  {
    assert pat <= pat + rest;
    assert (pat + rest)[|pat|..] == rest;
  }

  /** Concatenation regroups freely. */
  lemma ConcatAssoc(x: string, y: string, z: string)
    ensures x + y + z == x + (y + z)
  {
  }

  /** Filling `pat + b`, where `b` contains no '{', gives `rep + b`. */
  lemma FillFront(b: string, pat: string, rep: string)
    requires pat != [] && pat[0] == '{' && '{' !in b
    ensures Replace(pat + b, pat, rep) == rep + b
  {
    assert pat <= pat + b;
    assert (pat + b)[|pat|..] == b;
    NoBraceNoPlaceholder(b, pat);
  }

  /** Text whose first character starts no placeholder `pat` and whose other characters
      are not '{' passes through a replacement of `pat` untouched. */
  lemma {:induction false} ReplaceSkipHead(x: string, s: string, pat: string, rep: string)
    requires pat != [] && pat[0] == '{'
    requires x != [] && !(pat <= x + s) && '{' !in x[1..]
    ensures Replace(x + s, pat, rep) == x + Replace(s, pat, rep)
  {
    HeadTail(x, s);
    ReplaceStep(x + s, pat, rep);
    ReplaceSkip(x[1..], s, pat, rep);
    HeadTail(x, Replace(s, pat, rep));
  }

  /** A string without '{' is left unchanged by every placeholder replacement. */
  lemma ReplaceNoBrace(s: string, pat: string, rep: string)
    requires pat != [] && pat[0] == '{' && '{' !in s
    ensures Replace(s, pat, rep) == s
  {
    NoBraceNoPlaceholder(s, pat);
  }

  // ----------------------------------------------------------------------
  // A template as the literal text and the placeholders it is made of. Filling
  // one placeholder with `replace` puts the value in each of its holes and keeps
  // everything else, provided the literal text holds no '{' and no other hole
  // can be mistaken for the placeholder.

  /** A run of literal text, or a placeholder such as `{name}`. */
  datatype Piece = Lit(text: string) | Hole(key: string)

  function PieceText(p: Piece): string {
    match p
    case Lit(t) => t
    case Hole(k) => k
  }

  /** The template text the pieces spell out. */
  function Render(ps: seq<Piece>): (r: string)
    ensures ps == [] ==> r == []
    decreases |ps|
  {
    if ps == [] then [] else PieceText(ps[0]) + Render(ps[1..])
  }

  /** A placeholder: '{' first and nowhere else. */
  predicate IsPlaceholder(k: string) {
    |k| >= 2 && k[0] == '{' && '{' !in k[1..]
  }

  /** Literal runs free of '{', holes that are placeholders. */
  predicate WellFormed(ps: seq<Piece>) {
    forall i :: 0 <= i < |ps| ==>
      (ps[i].Lit? ==> '{' !in ps[i].text) && (ps[i].Hole? ==> IsPlaceholder(ps[i].key))
  }

  /** `a` and `b` differ at some position both have, so neither is a prefix of text
      that starts with the other. */
  predicate Apart(a: string, b: string)
    decreases |a|
  {
    a != [] && b != [] && (a[0] != b[0] || Apart(a[1..], b[1..]))
  }

  /** Every hole other than `key` is apart from `key`. */
  predicate OthersApart(ps: seq<Piece>, key: string) {
    forall i :: 0 <= i < |ps| && ps[i].Hole? && ps[i].key != key ==> Apart(key, ps[i].key)
  }

  /** The pieces with every hole `key` turned into the literal `v`. */
  function Fill(ps: seq<Piece>, key: string, v: string): (r: seq<Piece>)
    ensures |r| == |ps|
    ensures forall i :: 0 <= i < |ps| ==> r[i] == (if ps[i] == Hole(key) then Lit(v) else ps[i])
    decreases |ps|
  {
    if ps == [] then []
    else [if ps[0] == Hole(key) then Lit(v) else ps[0]] + Fill(ps[1..], key, v)
  }

  lemma {:induction false} ApartNotPrefix(a: string, b: string, s: string)
    requires Apart(a, b)
    ensures !(a <= b + s)
    decreases |a|
  {
    assert (b + s)[0] == b[0];
    if a[0] == b[0] {
      ApartNotPrefix(a[1..], b[1..], s);
      assert (b + s)[1..] == b[1..] + s;
    }
  }

  /** `replace(key, v)` on the rendered template fills exactly the holes `key`. */
  lemma {:induction false} FillRender(ps: seq<Piece>, key: string, v: string)
    requires IsPlaceholder(key) && WellFormed(ps) && OthersApart(ps, key)
    ensures Replace(Render(ps), key, v) == Render(Fill(ps, key, v))
    decreases |ps|
  {
    if ps != [] {
      var p := ps[0];
      var rest := Render(ps[1..]);
      assert WellFormed(ps[1..]) && OthersApart(ps[1..], key) by {
        assert forall i :: 0 <= i < |ps| - 1 ==> ps[1..][i] == ps[i + 1];
      }
      FillRender(ps[1..], key, v);
      assert Fill(ps, key, v)[1..] == Fill(ps[1..], key, v);
      match p
      case Lit(t) =>
        ReplaceSkip(t, rest, key, v);
      case Hole(h) =>
        if h == key {
          assert key <= key + rest;
          assert (key + rest)[|key|..] == rest;
        } else {
          ApartNotPrefix(key, h, rest);
          ReplaceSkipHead(h, rest, key, v);
        }
    }
  }

  /** Filling a hole with text free of '{' keeps the pieces well formed. */
  lemma FillWellFormed(ps: seq<Piece>, key: string, v: string)
    requires WellFormed(ps) && '{' !in v
    ensures WellFormed(Fill(ps, key, v))
  {
  }

  /** The rendering of two, three or four pieces. */
  lemma Render2(p: Piece, q: Piece)
    ensures Render([p, q]) == PieceText(p) + PieceText(q)
  {
    assert [p, q][1..] == [q];
    assert [q][1..] == [];
  }

  lemma Render3(p: Piece, q: Piece, r: Piece)
    ensures Render([p, q, r]) == PieceText(p) + PieceText(q) + PieceText(r)
  {
    assert [p, q, r][1..] == [q, r];
    Render2(q, r);
  }

  lemma Render4(p: Piece, q: Piece, r: Piece, t: Piece)
    ensures Render([p, q, r, t]) == PieceText(p) + PieceText(q) + PieceText(r) + PieceText(t)
  {
    assert [p, q, r, t][1..] == [q, r, t];
    Render3(q, r, t);
  }

  /** Filling two placeholders one after the other, as the generators do. */
  lemma FillTwice(ps: seq<Piece>, k1: string, v1: string, k2: string, v2: string)
    requires IsPlaceholder(k1) && IsPlaceholder(k2) && WellFormed(ps) && '{' !in v1
    requires OthersApart(ps, k1) && OthersApart(Fill(ps, k1, v1), k2)
    ensures Replace(Replace(Render(ps), k1, v1), k2, v2) == Render(Fill(Fill(ps, k1, v1), k2, v2))
  {
    FillRender(ps, k1, v1);
    FillWellFormed(ps, k1, v1);
    FillRender(Fill(ps, k1, v1), k2, v2);
  }

  /** Two placeholders filled in order, the first-filled one leading the template. */
  lemma FillFirstLeading(k1: string, b: string, k2: string, c: string, v1: string, v2: string)
    requires IsPlaceholder(k1) && IsPlaceholder(k2) && Apart(k1, k2) && k1 != k2
    requires '{' !in b && '{' !in c && '{' !in v1
    ensures Replace(Replace(k1 + b + k2 + c, k1, v1), k2, v2) == v1 + b + v2 + c
  {
    Render4(Hole(k1), Lit(b), Hole(k2), Lit(c));
    Render4(Lit(v1), Lit(b), Lit(v2), Lit(c));
    FillPieces(Hole(k1), b, Hole(k2), c, k1, v1, k2, v2);
  }

  /** Two placeholders filled in order, the second-filled one leading the template. */
  lemma FillSecondLeading(k1: string, b: string, k2: string, c: string, v1: string, v2: string)
    requires IsPlaceholder(k1) && IsPlaceholder(k2) && Apart(k1, k2) && k1 != k2
    requires '{' !in b && '{' !in c && '{' !in v1
    ensures Replace(Replace(k2 + b + k1 + c, k1, v1), k2, v2) == v2 + b + v1 + c
  {
    Render4(Hole(k2), Lit(b), Hole(k1), Lit(c));
    Render4(Lit(v2), Lit(b), Lit(v1), Lit(c));
    FillPieces(Hole(k2), b, Hole(k1), c, k1, v1, k2, v2);
  }

  /** The value a hole `k1` or `k2` receives when both are filled. */
  function Filled(p: Piece, k1: string, v1: string, k2: string, v2: string): Piece {
    if p == Hole(k1) then Lit(v1) else if p == Hole(k2) then Lit(v2) else p
  }

  /** Filling two holes, one `k1` and one `k2` in either order, between literal texts. */
  lemma FillPieces(x: Piece, b: string, y: Piece, c: string, k1: string, v1: string, k2: string, v2: string)
    requires IsPlaceholder(k1) && IsPlaceholder(k2) && Apart(k1, k2) && k1 != k2
    requires '{' !in b && '{' !in c && '{' !in v1
    requires (x == Hole(k1) && y == Hole(k2)) || (x == Hole(k2) && y == Hole(k1))
    ensures Replace(Replace(Render([x, Lit(b), y, Lit(c)]), k1, v1), k2, v2)
            == Render([Filled(x, k1, v1, k2, v2), Lit(b), Filled(y, k1, v1, k2, v2), Lit(c)])
  {
    var ps := [x, Lit(b), y, Lit(c)];
    FourWellFormed(x, b, y, c);
    FourOthersApart(x, b, y, c, k1);
    var x1 := if x == Hole(k1) then Lit(v1) else x;
    var y1 := if y == Hole(k1) then Lit(v1) else y;
    FourFill(x, b, y, c, k1, v1);
    FourOthersApart(x1, b, y1, c, k2);
    FourFill(x1, b, y1, c, k2, v2);
    FillTwice(ps, k1, v1, k2, v2);
  }

  /** Two placeholder holes between literal texts without '{' are well formed. */
  lemma FourWellFormed(x: Piece, b: string, y: Piece, c: string)
    requires x.Hole? && IsPlaceholder(x.key) && y.Hole? && IsPlaceholder(y.key)
    requires '{' !in b && '{' !in c
    ensures WellFormed([x, Lit(b), y, Lit(c)])
  {
  }

  /** The holes of a four-piece template, when apart from `key` or equal to it. */
  lemma FourOthersApart(x: Piece, b: string, y: Piece, c: string, key: string)
    requires x.Hole? && x.key != key ==> Apart(key, x.key)
    requires y.Hole? && y.key != key ==> Apart(key, y.key)
    ensures OthersApart([x, Lit(b), y, Lit(c)], key)
  {
  }

  /** Filling one placeholder of a four-piece template. */
  lemma FourFill(x: Piece, b: string, y: Piece, c: string, key: string, v: string)
    ensures Fill([x, Lit(b), y, Lit(c)], key, v)
            == [if x == Hole(key) then Lit(v) else x, Lit(b), if y == Hole(key) then Lit(v) else y, Lit(c)]
  {
  }

  /** The same as `FillFirstLeading` for a template that ends with its second placeholder. */
  lemma FillFirstLeadingEnd(k1: string, b: string, k2: string, v1: string, v2: string)
    requires IsPlaceholder(k1) && IsPlaceholder(k2) && Apart(k1, k2) && k1 != k2
    requires '{' !in b && '{' !in v1
    ensures Replace(Replace(k1 + b + k2, k1, v1), k2, v2) == v1 + b + v2
  {
    FillFirstLeading(k1, b, k2, [], v1, v2);
    assert k1 + b + k2 + [] == k1 + b + k2;
    assert v1 + b + v2 + [] == v1 + b + v2;
  }

  /** Filling `a + pat`, where `a` contains no '{', gives `a + rep`. */
  lemma FillBack(a: string, pat: string, rep: string)
    requires pat != [] && pat[0] == '{' && '{' !in a
    ensures Replace(a + pat, pat, rep) == a + rep
  {
    FillOne(a, [], pat, rep);
    assert a + pat + [] == a + pat;
    assert a + rep + [] == a + rep;
  }

  // ----------------------------------------------------------------------
  // What `generate_single` makes of a template built from pieces.

  /** Every hole of `ps` is one of `keys`. */
  predicate HolesIn(ps: seq<Piece>, keys: set<string>) {
    forall i :: 0 <= i < |ps| && ps[i].Hole? ==> ps[i].key in keys
  }

  /** Pieces that are all literal text free of '{' render to text free of '{'. */
  lemma {:induction false} RenderNoBrace(ps: seq<Piece>)
    requires WellFormed(ps) && HolesIn(ps, {})
    ensures '{' !in Render(ps)
    decreases |ps|
  {
    if ps != [] {
      assert ps[0].Lit?;
      assert WellFormed(ps[1..]) && HolesIn(ps[1..], {}) by {
        assert forall i :: 0 <= i < |ps| - 1 ==> ps[1..][i] == ps[i + 1];
      }
      RenderNoBrace(ps[1..]);
    }
  }

  /** A placeholder alone, searched for one that is apart from it, stays as it is. */
  lemma ReplaceOtherAlone(x: string, pat: string, rep: string)
    requires IsPlaceholder(x) && IsPlaceholder(pat) && Apart(pat, x)
    ensures Replace(x, pat, rep) == x
  {
    assert x == x + [];
    ApartNotPrefix(pat, x, []);
    ReplaceSkipHead(x, [], pat, rep);
  }

  /** The first of two replacements over `<first><mid><second>` puts its value in as it
      is, whatever the value holds. */
  lemma FirstPass(first: string, mid: string, second: string, v: string)
    requires IsPlaceholder(first) && IsPlaceholder(second) && Apart(first, second)
    requires '{' !in mid
    ensures Replace(first + mid + second, first, v) == v + mid + second
  {
    ConcatAssoc(first, mid, second);
    ReplaceFront(first, mid + second, v);
    ReplaceSkip(mid, second, first, v);
    ReplaceOtherAlone(second, first, v);
    ConcatAssoc(v, mid, second);
  }

  /** The second replacement over `<a><second><mid><second>` fills both holes, so a
      copy of `second` carried in by the first value is filled too. */
  lemma SecondPass(a: string, second: string, mid: string, v: string)
    requires IsPlaceholder(second) && '{' !in a && '{' !in mid
    ensures Replace(a + second + mid + second, second, v) == a + v + mid + v
  {
    ConcatAssoc(a + second, mid, second);
    ConcatAssoc(a, second, mid + second);
    ReplaceSkip(a, second + (mid + second), second, v);
    ReplaceFront(second, mid + second, v);
    FillBack(mid, second, v);
    ConcatAssoc(a, v, mid + v);
    ConcatAssoc(a + v, mid, v);
  }

  /** The second replacement also runs over the name put in by the first: a name
      `<a>{target_user}` fills the template `{name}` as `<a>` and the whole name again,
      not as given. */
  lemma NameRewritten(a: string)
    requires '{' !in a
    ensures GenerateSingle(Generator(["{name}"], []), a + "{target_user}", 0) == a + a + "{target_user}"
  {
    var n := a + "{target_user}";
    assert "{name}" == "{name}" + [];
    ReplaceFront("{name}", [], n);
    assert n + [] == n;
    FillBack(a, "{target_user}", n);
    ConcatAssoc(a, a, "{target_user}");
  }

  /** A template whose only placeholder is `{name}`: `generate_single` puts the name in
      each of its holes, and the `{target_user}` pass then finds nothing to replace. */
  lemma GenerateSingleFills(g: Generator, ps: seq<Piece>, name: string, choice: nat)
    requires choice < |g.singles| && g.singles[choice] == Render(ps)
    requires WellFormed(ps) && HolesIn(ps, {"{name}"}) && '{' !in name
    ensures GenerateSingle(g, name, choice) == Render(Fill(ps, "{name}", name))
  {
    FillRender(ps, "{name}", name);
    var filled := Fill(ps, "{name}", name);
    FillWellFormed(ps, "{name}", name);
    RenderNoBrace(filled);
    ReplaceNoBrace(Render(filled), "{target_user}", name);
  }
}
