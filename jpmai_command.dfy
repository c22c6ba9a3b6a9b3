/**
 * The dispatch rule of the `,jpmai` command: which handler a command's argument text
 * reaches. The help text documents `,jpmai <keyword> on|off` for switching one
 * keyword, but the dispatch only switches a keyword when the first word is "on" or
 * "off" and at least three words follow the command, that is `,jpmai on <keyword> <action>`;
 * the documented form falls through to the help text. `Dispatch` is the rule as
 * written, `DispatchIntended` the rule that also accepts the documented form.
 */
module JpmaiCommand {
  import opened PyStr

  /** The handler a `,jpmai` command reaches. */
  datatype Command =
    | EmptyPrompt                              // "请输入文本", deleted after 3 seconds
    | Help
    | ToggleKeyword(keyword: string, on: bool)
    | EnableAll | DisableAll
    | SetKeyword | DeleteKeyword | ListKeywords | SetOwner | ShowStatus
    | ManageAnchor | SetApi | SetModel | TestConnectivity

  /** The sub-command words the dispatch recognises. */
  const CommandWords: seq<string> :=
    ["on", "off", "set", "delete", "list", "owner", "status", "anchor", "api", "model", "test"]

  /** The handler for sub-command word `cmd` (`on` and `off` without the switch form). */
  function Named(cmd: string): (c: Command)
    ensures c == Help <==> cmd !in CommandWords
  {
    match cmd
    case "on" => EnableAll
    case "off" => DisableAll
    case "set" => SetKeyword
    case "delete" => DeleteKeyword
    case "list" => ListKeywords
    case "owner" => SetOwner
    case "status" => ShowStatus
    case "anchor" => ManageAnchor
    case "api" => SetApi
    case "model" => SetModel
    case "test" => TestConnectivity
    case _ => Help
  }

  /** The choice among the lower-cased words of a text that is neither blank nor "help". */
  function Route(params: seq<string>): (c: Command)
    requires params != []
    ensures c != EmptyPrompt
    ensures c.ToggleKeyword? ==>
              && |params| >= 3 && (params[0] == "on" || params[0] == "off")
              && c.keyword == params[1] && (c.on <==> params[2] == "on")
    ensures c == Help <==> params[0] !in CommandWords
  {
    var cmd := params[0];
    if (cmd == "on" || cmd == "off") && |params| >= 3 then ToggleKeyword(params[1], params[2] == "on")
    else Named(cmd)
  }

  /** `jpmai_command` as written: blank text gets the prompt; "help" (any case) the help;
      otherwise the lower-cased words decide, and a keyword is switched only by
      `on|off <keyword> <action>`, the keyword lower-cased, on exactly when the action
      is "on". */
  function Dispatch(text: string): (c: Command)
    ensures c == EmptyPrompt <==> AllSpace(text)
  {
    if Strip(text) == [] then EmptyPrompt
    else if Lower(Strip(text)) == "help" then Help
    else
      LowerKeepsSpace(text);
      SplitEmpty(Lower(text));
      Route(Split(Lower(text)))
  }

  /** The dispatch the help text describes: `<keyword> on|off` switches that keyword, with
      the keyword as typed; every other text goes where `Dispatch` sends it. */
  function DispatchIntended(text: string): (c: Command)
    ensures c.ToggleKeyword? && !Dispatch(text).ToggleKeyword? ==>
              var words := Split(text);
              && |words| >= 2 && c.keyword == words[0]
              && Lower(words[0]) !in CommandWords
              && (c.on <==> Lower(words[1]) == "on")
  {
    if Strip(text) == [] || Lower(Strip(text)) == "help" then Dispatch(text)
    else
      var words := Split(text);
      if |words| >= 2 && Lower(words[0]) !in CommandWords && (Lower(words[1]) == "on" || Lower(words[1]) == "off")
      then ToggleKeyword(words[0], Lower(words[1]) == "on")
      else Dispatch(text)
  }

  // ---------------------------------------------------------------------
  // Lower-casing and splitting commute

  /** Lower-casing a character never turns whitespace into text or back. */
  lemma LowerCharSpace(c: char)
    ensures IsSpace(LowerChar(c)) <==> IsSpace(c)
  {
  }

  /** Lower-casing keeps a word a word. */
  lemma {:induction false} LowerToken(s: string)
    requires IsToken(s)
    ensures IsToken(Lower(s))
  {
    forall i | 0 <= i < |s| ensures !IsSpace(Lower(s)[i]) {
      LowerCharSpace(s[i]);
    }
  }

  /** Lower-casing commutes with dropping leading whitespace. */
  lemma {:induction false} LStripLower(s: string)
    ensures LStrip(Lower(s)) == Lower(LStrip(s))
    decreases |s|
  {
    if s != [] {
      LowerCharSpace(s[0]);
      assert Lower(s)[0] == LowerChar(s[0]);
      assert Lower(s)[1..] == Lower(s[1..]);
      LStripLower(s[1..]);
    }
  }

  /** Lower-casing keeps the length of the leading word. */
  lemma {:induction false} WordLenLower(s: string)
    ensures WordLen(Lower(s)) == WordLen(s)
    decreases |s|
  {
    if s != [] {
      LowerCharSpace(s[0]);
      assert Lower(s)[0] == LowerChar(s[0]);
      assert Lower(s)[1..] == Lower(s[1..]);
      WordLenLower(s[1..]);
    }
  }

  /** Every word lower-cased. */
  function LowerAll(ws: seq<string>): (r: seq<string>)
    ensures |r| == |ws|
    ensures ws != [] ==> r[0] == Lower(ws[0])
    decreases |ws|
  {
    if ws == [] then [] else [Lower(ws[0])] + LowerAll(ws[1..])
  }

  /** Lower-casing commutes with cutting a string in two. */
  lemma LowerSlices(t: string, n: nat)
    requires n <= |t|
    ensures Lower(t)[..n] == Lower(t[..n]) && Lower(t)[n..] == Lower(t[n..])
  {
  }

  /** One step of `split()` on a string that is not all whitespace. */
  lemma SplitStep(s: string)
    requires LStrip(s) != []
    ensures var t := LStrip(s);
            WordLen(t) <= |t| && Split(s) == [t[..WordLen(t)]] + Split(t[WordLen(t)..])
  {
  }

  /** Lower-casing a list word by word, one word at a time. */
  lemma LowerAllCons(w: string, ws: seq<string>)
    ensures LowerAll([w] + ws) == [Lower(w)] + LowerAll(ws)
  {
    assert ([w] + ws)[1..] == ws;
  }

  /** `s.lower().split()` is `s.split()` with every word lower-cased. */
  lemma {:induction false} SplitLower(s: string)
    ensures Split(Lower(s)) == LowerAll(Split(s))
    decreases |s|
  {
    var t := LStrip(s);
    LStripLower(s);
    if t != [] {
      var n := WordLen(t);
      WordLenLower(t);
      var lt := Lower(t);
      LowerSlices(t, n);
      SplitLower(t[n..]);
      SplitStep(s);
      SplitStep(Lower(s));
      var ws := [t[..n]] + Split(t[n..]);
      assert ws[1..] == Split(t[n..]);
      assert LowerAll(ws) == [Lower(t[..n])] + LowerAll(Split(t[n..]));
    } else {
      LStripEmpty(s);
      SplitEmpty(s);
      LowerKeepsSpace(s);
      SplitEmpty(Lower(s));
    }
  }

  // ---------------------------------------------------------------------
  // What the two rules do

  /** The action words are already lower case. */
  lemma ActionLower(action: string)
    requires action == "on" || action == "off"
    ensures Lower(action) == action
  {
    assert LowerChar('o') == 'o' && LowerChar('n') == 'n' && LowerChar('f') == 'f';
  }

  /** `<keyword> on` written out the documented way, for a keyword that is one word. */
  lemma {:induction false} KeywordAction(kw: string, action: string)
    requires IsToken(kw) && (action == "on" || action == "off")
    ensures Strip(kw + " " + action) == kw + " " + action
    ensures Lower(Strip(kw + " " + action)) != "help"
    ensures Split(kw + " " + action) == [kw, action]
    ensures Split(Lower(kw + " " + action)) == [Lower(kw), action]
  {
    SpacedStrip(kw, action);
    SpacedNotHelp(kw, action);
    SpacedLower(kw, action);
    SplitTwo(kw, action);
    LowerToken(kw);
    SplitTwo(Lower(kw), action);
  }

  /** A word, a space and an action word have nothing to strip. */
  lemma SpacedStrip(kw: string, action: string)
    requires IsToken(kw) && (action == "on" || action == "off")
    ensures Strip(kw + " " + action) == kw + " " + action
  {
    var text := kw + " " + action;
    assert text[0] == kw[0] && text[|text| - 1] == action[|action| - 1];
  }

  /** Lower-casing a word, a space and an action word lower-cases the word only. */
  lemma SpacedLower(kw: string, action: string)
    requires action == "on" || action == "off"
    ensures Lower(kw + " " + action) == Lower(kw) + " " + action
  {
    LowerAppend(kw, " " + action);
    assert Lower(" " + action) == " " + action;
    assert kw + " " + action == kw + (" " + action);
  }

  /** A word, a space and anything after it never lower-case to "help". */
  lemma SpacedNotHelp(kw: string, action: string)
    requires kw != []
    ensures Lower(kw + " " + action) != "help"
  {
    var text := kw + " " + action;
    assert Lower(text)[|kw|] == ' ' by { assert text[|kw|] == ' '; }
    forall i | 0 <= i < |"help"| ensures "help"[i] != ' ' {
    }
  }

  /** As written, the documented `,jpmai <keyword> on|off` reaches the help text for every
      keyword that is not itself a sub-command word: the keyword is never switched. */
  lemma {:induction false} DocumentedToggleIsHelp(kw: string, action: string)
    requires IsToken(kw) && Lower(kw) !in CommandWords
    requires action == "on" || action == "off"
    ensures Dispatch(kw + " " + action) == Help
  {
    KeywordAction(kw, action);
  }

  /** The action words are single words. */
  lemma ActionToken(action: string)
    requires action == "on" || action == "off"
    ensures IsToken(action)
  {
    assert !IsSpace('o') && !IsSpace('n') && !IsSpace('f');
  }

  /** Lower-casing a list keeps each word's place. */
  lemma {:induction false} LowerAllAt(ws: seq<string>, i: nat)
    requires i < |ws|
    ensures LowerAll(ws)[i] == Lower(ws[i])
    decreases i
  {
    if i > 0 {
      LowerAllAt(ws[1..], i - 1);
    }
  }

  /** `on <keyword> on|off` has nothing to strip. */
  lemma {:induction false} OnKeywordStrip(kw: string, action: string)
    requires IsToken(kw) && (action == "on" || action == "off")
    ensures Strip("on " + kw + " " + action) == "on " + kw + " " + action
  {
    var text := "on " + kw + " " + action;
    assert text[0] == 'o' && text[|text| - 1] == action[|action| - 1];
    ActionToken(action);
  }

  /** Three words separated by single spaces split into exactly those three. */
  lemma {:induction false} SplitThree(a: string, b: string, c: string)
    requires IsToken(a) && IsToken(b) && IsToken(c)
    ensures var ws := Split(a + " " + b + " " + c);
            |ws| == 3 && ws[0] == a && ws[1] == b && ws[2] == c
  {
    var rest := b + " " + c;
    SpacedAssoc(a, b, c);
    SplitCons(a, rest);
    SplitTwo(b, c);
  }

  /** Three words joined by spaces, grouped from the right. */
  lemma SpacedAssoc(a: string, b: string, c: string)
    ensures a + " " + b + " " + c == a + " " + (b + " " + c)
  {
  }

  /** `on <keyword> on|off` splits into its three words. */
  lemma {:induction false} OnKeywordWords(kw: string, action: string)
    requires IsToken(kw) && (action == "on" || action == "off")
    ensures var ws := Split("on " + kw + " " + action);
            |ws| == 3 && ws[0] == "on" && ws[1] == kw && ws[2] == action
  {
    ActionToken("on");
    ActionToken(action);
    assert "on " + kw + " " + action == "on" + " " + kw + " " + action;
    SplitThree("on", kw, action);
  }

  /** `on <keyword> on|off`, the only form that switches a keyword as written. */
  lemma {:induction false} OnKeywordAction(kw: string, action: string)
    requires IsToken(kw) && (action == "on" || action == "off")
    ensures Strip("on " + kw + " " + action) != []
    ensures Lower(Strip("on " + kw + " " + action)) != "help"
    ensures var params := Split(Lower("on " + kw + " " + action));
            |params| == 3 && params[0] == "on" && params[1] == Lower(kw) && params[2] == action
  {
    var text := "on " + kw + " " + action;
    OnKeywordStrip(kw, action);
    OnKeywordWords(kw, action);
    var ws := Split(text);
    SplitLower(text);
    LowerAllAt(ws, 0);
    LowerAllAt(ws, 1);
    LowerAllAt(ws, 2);
    ActionLower("on");
    ActionLower(action);
    assert |Lower(text)| == |text|;
  }

  /** As written, switching works only as `on <keyword> on|off`, and then for the
      lower-cased keyword: a keyword stored with capitals cannot be switched. */
  lemma {:induction false} WrittenToggleForm(kw: string, action: string)
    requires IsToken(kw) && (action == "on" || action == "off")
    ensures Dispatch("on " + kw + " " + action) == ToggleKeyword(Lower(kw), action == "on")
  {
    OnKeywordAction(kw, action);
    var text := "on " + kw + " " + action;
    var params := Split(Lower(text));
    assert Route(params) == ToggleKeyword(Lower(kw), action == "on");
  }

  /** With the documented form accepted, `,jpmai <keyword> on|off` switches exactly that
      keyword, as typed, on for "on" and off for "off". */
  lemma {:induction false} DocumentedToggleWorks(kw: string, action: string)
    requires IsToken(kw) && Lower(kw) !in CommandWords
    requires action == "on" || action == "off"
    ensures DispatchIntended(kw + " " + action) == ToggleKeyword(kw, action == "on")
  {
    KeywordAction(kw, action);
    ActionLower(action);
    var text := kw + " " + action;
    var words := Split(text);
    assert Strip(text) != [];
    assert Lower(Strip(text)) != "help";
    assert words == [kw, action];
    assert Lower(words[1]) == action;
    assert Lower(words[0]) !in CommandWords;
    assert DispatchIntended(text) == ToggleKeyword(words[0], Lower(words[1]) == "on");
  }

  /** The intended rule changes only texts that the written rule sends to the help text;
      every command that works as written works the same. */
  lemma {:induction false} IntendedOnlyFixesHelp(text: string)
    ensures DispatchIntended(text) != Dispatch(text) ==> Dispatch(text) == Help
  {
    if Strip(text) != [] && Lower(Strip(text)) != "help" {
      var words := Split(text);
      if |words| >= 2 && Lower(words[0]) !in CommandWords && (Lower(words[1]) == "on" || Lower(words[1]) == "off") {
        SplitLower(text);
      }
    }
  }
}
