/**
 * `AIGenerator._extract_content` of the jpmai plugin: the filter that picks the
 * actual text out of a model's answer. The answer is cut into its non-blank
 * lines (stripped); with a single line that line is the answer; otherwise lines
 * that read like the model's reasoning or like a short heading are dropped
 * (all lines come back if none is left), the longest remaining line is taken,
 * and a line over 400 characters is cut to 350 characters and "...".
 */
module JpmaiExtract {
  import opened Wrappers
  import opened PyStr

  /** `filter_keywords` in table order ("构思" is listed twice in the source). */
  const FilterKeywords: seq<string> := [
    "拆解", "构思", "初稿", "步骤", "内心活动", "场景构建", "起草", "润色", "构思", "最终", "修改",
    "提炼", "首先", "其次", "然后", "最后", "总之", "第一", "第二", "第三", "段落", "标题"
  ]

  /** A kept line longer than this is cut. */
  const MaxLength: nat := 400
  /** How much of a cut line is kept before the "...". */
  const CutLength: nat := 350
  /** A line shorter than this with a colon counts as a heading. */
  const TitleLength: nat := 30

  /** `[p.strip() for p in lines if p.strip()]`: the stripped non-blank lines, in order. */
  function NonBlank(lines: seq<string>): (r: seq<string>)
    ensures |r| <= |lines|
    ensures forall i :: 0 <= i < |r| ==> r[i] != []
    decreases |lines|
  {
    if lines == [] then []
    else
      var p := Strip(lines[0]);
      var rest := NonBlank(lines[1..]);
      if p == [] then rest else [p] + rest
  }

  /** The comprehension one line at a time: a further line adds its stripped text at the
      end when that is not empty, and nothing otherwise. */
  lemma {:induction false} NonBlankSnoc(lines: seq<string>, line: string)
    ensures NonBlank(lines + [line]) == NonBlank(lines) + (if Strip(line) == [] then [] else [Strip(line)])
    decreases |lines|
  {
    if lines == [] {
      assert lines + [line] == [line];
      assert [line][1..] == [];
    } else {
      assert (lines + [line])[0] == lines[0];
      assert (lines + [line])[1..] == lines[1..] + [line];
      NonBlankSnoc(lines[1..], line);
    }
  }

  /** Every line of `ls` is all whitespace. */
  ghost predicate AllBlank(ls: seq<string>) {
    forall k :: 0 <= k < |ls| ==> AllSpace(ls[k])
  }

  /** A list with one more line in front is blank when that line and the rest are. */
  lemma AllBlankCons(x: string, ls: seq<string>)
    ensures AllBlank([x] + ls) <==> AllSpace(x) && AllBlank(ls)
  {
    var xs := [x] + ls;
    assert xs[0] == x;
    assert forall k :: 0 <= k < |ls| ==> xs[k + 1] == ls[k];
    if AllSpace(x) && AllBlank(ls) {
      forall k | 0 <= k < |xs| ensures AllSpace(xs[k]) {
        if k > 0 {
          assert xs[k] == ls[k - 1];
        }
      }
    }
  }

  /** Text cut at a whitespace character is blank when both sides are. */
  lemma AllSpaceAround(s: string, n: nat)
    requires n < |s| && IsSpace(s[n])
    ensures AllSpace(s) <==> AllSpace(s[..n]) && AllSpace(s[n + 1..])
  {
    assert forall i :: 0 <= i < n ==> s[..n][i] == s[i];
    assert forall i :: n < i < |s| ==> s[n + 1..][i - n - 1] == s[i];
  }

  /** The stripped non-blank lines are none exactly when every line is all whitespace. */
  lemma {:induction false} NonBlankNone(lines: seq<string>)
    ensures NonBlank(lines) == [] <==> AllBlank(lines)
    decreases |lines|
  {
    if lines != [] {
      NonBlankNone(lines[1..]);
      assert lines == [lines[0]] + lines[1..];
      AllBlankCons(lines[0], lines[1..]);
    }
  }

  /** Text is all whitespace exactly when each of its '\n'-separated lines is. */
  lemma {:induction false} LinesBlank(s: string)
    ensures AllSpace(s) <==> AllBlank(SplitOn(s, '\n'))
    decreases |s|
  {
    var n := SegmentLen(s, '\n');
    if n < |s| {
      LinesBlank(s[n + 1..]);
      assert SplitOn(s, '\n') == [s[..n]] + SplitOn(s[n + 1..], '\n');
      AllSpaceAround(s, n);
      AllBlankCons(s[..n], SplitOn(s[n + 1..], '\n'));
    } else {
      assert SplitOn(s, '\n') == [s];
      AllBlankCons(s, []);
    }
  }

  /** The paragraphs of an answer: its stripped non-blank lines. */
  function Paragraphs(raw: string): seq<string> {
    NonBlank(SplitOn(raw, '\n'))
  }

  /** `any(keyword in para for keyword in filter_keywords)`. */
  predicate IsReasoning(para: string) {
    exists i :: 0 <= i < |FilterKeywords| && Contains(para, FilterKeywords[i])
  }

  /** A short line with a full-width or ASCII colon in it or at its end. */
  predicate IsTitle(para: string) {
    |para| < TitleLength
    && (Contains(para, "：") || Contains(para, ":") || EndsWith(para, "：") || EndsWith(para, ":"))
  }

  /** A line that survives the filter. */
  predicate Kept(para: string) {
    !IsReasoning(para) && !IsTitle(para)
  }

  /** The surviving lines, in order. */
  function Filter(ps: seq<string>): (r: seq<string>)
    ensures |r| <= |ps|
    decreases |ps|
  {
    if ps == [] then []
    else
      var last := ps[|ps| - 1];
      var init := Filter(ps[..|ps| - 1]);
      if Kept(last) then init + [last] else init
  }

  /** One more line through the filter: kept lines are appended, the rest dropped. */
  lemma FilterStep(ps: seq<string>, i: nat)
    requires i < |ps|
    ensures Filter(ps[..i + 1]) == if Kept(ps[i]) then Filter(ps[..i]) + [ps[i]] else Filter(ps[..i])
  {
    assert ps[..i + 1][..i] == ps[..i];
  }

  /** The surviving lines are exactly the kept lines of `ps`. */
  lemma {:induction false} FilterKeeps(ps: seq<string>)
    ensures forall p :: p in Filter(ps) <==> p in ps && Kept(p)
    decreases |ps|
  {
    if ps != [] {
      var last := ps[|ps| - 1];
      FilterKeeps(ps[..|ps| - 1]);
      assert forall p :: p in ps <==> p in ps[..|ps| - 1] || p == last;
    }
  }

  /** The position `max(ps, key=len)` picks: a longest line, the first of them. */
  function LongestAt(ps: seq<string>): (k: nat)
    requires ps != []
    ensures k < |ps|
    ensures forall i :: 0 <= i < |ps| ==> |ps[i]| <= |ps[k]|
    ensures forall i :: 0 <= i < k ==> |ps[i]| < |ps[k]|
    decreases |ps|
  {
    if |ps| == 1 then 0
    else
      var k := LongestAt(ps[..|ps| - 1]);
      if |ps[|ps| - 1]| > |ps[k]| then |ps| - 1 else k
  }

  /** The length cap: a line over 400 characters becomes its first 350 and "...";
      the result is never over 400 characters. */
  function Truncate(s: string): (r: string)
    ensures |r| <= MaxLength
    ensures |s| <= MaxLength ==> r == s
    ensures |s| > MaxLength ==> |r| == CutLength + 3 && r[..CutLength] == s[..CutLength]
    ensures |s| > MaxLength ==> r[CutLength..] == "..."
  {
    if |s| > MaxLength then s[..CutLength] + "..." else s
  }

  /** The lines the longest is chosen from: the surviving ones, or all when none survives. */
  function Candidates(ps: seq<string>): seq<string> {
    var kept := Filter(ps);
    if kept == [] then ps else kept
  }

  /** The choice `_extract_content` makes among the paragraphs `ps`: None when there are
      none; a single paragraph comes back as it is, however long; from two on, the
      longest candidate, cut to the cap, so the result is at most 400 characters. */
  function Choose(ps: seq<string>): (r: Option<string>)
    ensures r.None? <==> ps == []
    ensures |ps| == 1 ==> r == Some(ps[0])
    ensures |ps| >= 2 ==> |r.value| <= MaxLength
  {
    if ps == [] then None
    else if |ps| == 1 then Some(ps[0])
    else
      var pool := Candidates(ps);
      Some(Truncate(pool[LongestAt(pool)]))
  }

  /** `_extract_content(raw)`: the choice among the answer's paragraphs. */
  function Extract(raw: string): Option<string> {
    Choose(Paragraphs(raw))
  }

  /** An answer yields nothing exactly when it is all whitespace, that is when none of its
      lines has text left after stripping. */
  lemma ExtractNoneIffBlank(raw: string)
    ensures Extract(raw).None? <==> AllSpace(raw)
  {
    LinesBlank(raw);
    NonBlankNone(SplitOn(raw, '\n'));
  }

  /** The method as the source runs it: the surviving lines are collected by a loop. */
  method ExtractContent(raw: string) returns (r: Option<string>)
    ensures r == Choose(Paragraphs(raw))
  {
    var paragraphs := Paragraphs(raw);
    r := ChooseLoop(paragraphs);
  }

  /** The body of `_extract_content` after the paragraphs are cut: the filter loop,
      the fallback to all paragraphs, the longest pick and the cut. */
  method ChooseLoop(paragraphs: seq<string>) returns (r: Option<string>)
    ensures r == Choose(paragraphs)
  {
    if paragraphs == [] {
      return None;
    }
    if |paragraphs| == 1 {
      return Some(paragraphs[0]);
    }
    var filtered: seq<string> := [];
    var i := 0;
    while i < |paragraphs|
      invariant 0 <= i <= |paragraphs|
      invariant filtered == Filter(paragraphs[..i])
    {
      var para := paragraphs[i];
      FilterStep(paragraphs, i);
      if IsReasoning(para) {
        i := i + 1;
        continue;
      }
      if |para| < TitleLength && (Contains(para, "：") || Contains(para, ":") || EndsWith(para, "：") || EndsWith(para, ":")) {
        i := i + 1;
        continue;
      }
      filtered := filtered + [para];
      i := i + 1;
    }
    assert paragraphs[..i] == paragraphs;
    if filtered == [] {
      filtered := paragraphs;
    }
    var longest := filtered[LongestAt(filtered)];
    if |longest| > MaxLength {
      longest := longest[..CutLength] + "...";
    }
    r := Some(longest);
  }

  // ---------------------------------------------------------------------
  // What the result is

  /** When some paragraph survives the filter, the result is a surviving paragraph (cut
      to the cap), and no surviving paragraph is longer. */
  lemma ChoosePrefersKept(ps: seq<string>)
    requires |ps| >= 2
    requires exists p :: p in ps && Kept(p)
    ensures exists p :: p in ps && Kept(p) && Choose(ps) == Some(Truncate(p))
                        && forall q :: q in ps && Kept(q) ==> |q| <= |p|
  {
    var kept := Filter(ps);
    FilterKeeps(ps);
    var w :| w in ps && Kept(w);
    assert w in kept;
    assert Candidates(ps) == kept;
    var k := LongestAt(kept);
    var p := kept[k];
    assert Choose(ps) == Some(Truncate(p));
    assert p in kept;
    forall q | q in ps && Kept(q) ensures |q| <= |p| {
      assert q in kept;
      var j :| 0 <= j < |kept| && kept[j] == q;
    }
  }

  /** When no paragraph survives, the result is the longest of all (cut to the cap). */
  lemma ChooseFallsBack(ps: seq<string>)
    requires |ps| >= 2
    requires forall p :: p in ps ==> !Kept(p)
    ensures exists p :: p in ps && Choose(ps) == Some(Truncate(p))
                        && forall q :: q in ps ==> |q| <= |p|
  {
    FilterKeeps(ps);
    if Filter(ps) != [] {
      assert Filter(ps)[0] in Filter(ps);
    }
    var k := LongestAt(ps);
    assert ps[k] in ps;
  }

  /** Text without a line break that is not blank is a single paragraph: the answer
      is that text stripped, never cut, whatever its length and wording. */
  lemma SingleLine(raw: string)
    requires '\n' !in raw && !AllSpace(raw)
    ensures Extract(raw) == Some(Strip(raw))
  {
    assert SegmentLen(raw, '\n') == |raw|;
    assert SplitOn(raw, '\n') == [raw];
    assert [raw][1..] == [];
  }
}
