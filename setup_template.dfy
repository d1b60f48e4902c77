/**
 * The prompting helpers of the interactive setup wizard (setup_template.py).
 *
 * The terminal is modelled as the sequence of lines the user types, in
 * order; a read that finds no line left is the end of input, at which
 * `input()` raises and the wizard stops (`None` below).
 */
module SetupTemplate {
  import opened Common

  // ---------------------------------------------------------------------------
  // The prompt `get_user_input` shows

  const ChoicesOpen := " ("
  const ChoicesClose := ")"
  const DefaultOpen := " ["
  const DefaultClose := "]"
  const PromptEnd := ": "

  function ChoiceHint(choices: seq<string>): string
  {
    if choices == [] then "" else ChoicesOpen + Join(choices, '/') + ChoicesClose
  }

  function DefaultHint(default: string): string
  {
    if default == "" then "" else DefaultOpen + default + DefaultClose
  }

  /**
   * The prompt text: the caller's prompt, then the choices separated by '/'
   * in parentheses, then the default in brackets, then ": ". A missing
   * default and an empty one are alike, as are no choices and an empty list.
   */
  function Prompt(prompt: string, default: string, choices: seq<string>): string
  {
    prompt + ChoiceHint(choices) + DefaultHint(default) + PromptEnd
  }

  /** The prompt starts with the caller's text and ends with ": ", with nothing between when there is nothing to offer. */
  lemma PromptShape(prompt: string, default: string, choices: seq<string>)
    ensures var r := Prompt(prompt, default, choices);
      && StartsWith(r, prompt) && |r| >= |prompt| + 2 && r[|r| - 2..] == PromptEnd
      && (choices == [] && default == "" ==> r == prompt + PromptEnd)
  {
    Pieces(prompt, ChoiceHint(choices), DefaultHint(default), PromptEnd);
  }

  /** The choices come right after the caller's text, the default right before ": ". */
  lemma PromptHints(prompt: string, default: string, choices: seq<string>)
    ensures var r := Prompt(prompt, default, choices);
      && (choices != [] ==> OccursAt(ChoiceHint(choices), r, |prompt|))
      && (default != "" ==> OccursAt(DefaultHint(default), r, |r| - 2 - |DefaultHint(default)|))
  {
    Pieces(prompt, ChoiceHint(choices), DefaultHint(default), PromptEnd);
  }

  /** Where each of four pieces sits in their concatenation. */
  lemma Pieces(a: string, b: string, c: string, d: string)
    ensures var s := a + b + c + d;
      && s[..|a|] == a && s[|a|..|a| + |b|] == b
      && s[|a| + |b|..|a| + |b| + |c|] == c && s[|s| - |d|..] == d
  {
  }

  /** The prompt, extended one piece at a time. */
  method BuildPrompt(prompt: string, default: string, choices: seq<string>) returns (r: string)
    ensures r == Prompt(prompt, default, choices)
  {
    r := prompt;
    if choices != [] {
      r := r + ChoiceHint(choices);
    }
    if default != "" {
      r := r + DefaultHint(default);
    }
    r := r + PromptEnd;
  }

  // ---------------------------------------------------------------------------
  // Judging one response

  /** What `input(prompt).strip()` returns for each typed line. */
  function Responses(lines: seq<string>): (r: seq<string>)
    ensures |r| == |lines|
    ensures forall i :: 0 <= i < |lines| ==> r[i] == Strip(lines[i])
  {
    seq(|lines|, i requires 0 <= i < |lines| => Strip(lines[i]))
  }

  datatype Reply = Accept(value: string) | Required | NotAChoice

  function Lowers(choices: seq<string>): (r: seq<string>)
    ensures |r| == |choices|
    ensures forall i :: 0 <= i < |choices| ==> r[i] == Lower(choices[i])
  {
    seq(|choices|, i requires 0 <= i < |choices| => Lower(choices[i]))
  }

  /** `response` is one of the choices, ignoring case. */
  predicate MatchesChoice(response: string, choices: seq<string>)
  {
    exists c :: c in choices && Lower(c) == Lower(response)
  }

  lemma InLowers(choices: seq<string>, x: string)
    ensures x in Lowers(choices) <==> exists c :: c in choices && Lower(c) == x
  {
    if x in Lowers(choices) {
      var i :| 0 <= i < |choices| && Lowers(choices)[i] == x;
      assert choices[i] in choices;
    }
    if c :| c in choices && Lower(c) == x {
      var i :| 0 <= i < |choices| && choices[i] == c;
      assert Lowers(choices)[i] == x;
    }
  }

  /**
   * What `get_user_input` makes of one stripped response: the response
   * itself, the default for an empty response when there is a default, and
   * a re-prompt for an empty response without one or for a response that
   * matches none of the choices, ignoring case.
   */
  function Judge(response: string, default: string, choices: seq<string>): (r: Reply)
    ensures r.Accept? ==> r.value != ""
    ensures response == "" ==> (r.Accept? <==> default != "")
    ensures response == "" && r.Accept? ==> r.value == default
    ensures response != "" && r.Accept? ==> r.value == response
    ensures response != "" ==>
      (r.Accept? <==> choices == [] || MatchesChoice(response, choices))
  {
    InLowers(choices, Lower(response));
    if response == "" && default != "" then Accept(default)
    else if response == "" then Required
    else if choices != [] && Lower(response) !in Lowers(choices) then NotAChoice
    else Accept(response)
  }

  /**
   * The answer `get_user_input` returns after reading the stripped
   * `responses`, with the number of lines it consumed: the first response
   * it accepts, or `None` when the input ends before any is accepted.
   */
  function Answer(responses: seq<string>, default: string, choices: seq<string>): (r: Option<(string, nat)>)
    ensures r.Some? ==> 0 < r.value.1 <= |responses| && r.value.0 != ""
    decreases |responses|
  {
    if responses == [] then None
    else
      var reply := Judge(responses[0], default, choices);
      if reply.Accept? then Some((reply.value, 1))
      else
        var rest := Answer(responses[1..], default, choices);
        if rest.None? then None else Some((rest.value.0, rest.value.1 + 1))
  }

  /**
   * The answer is the first accepted response, every response before it was
   * turned down, and with no answer every response was turned down.
   */
  lemma {:induction false} AnswerSpec(responses: seq<string>, default: string, choices: seq<string>)
    ensures var r := Answer(responses, default, choices);
      && (r.Some? ==> Judge(responses[r.value.1 - 1], default, choices) == Accept(r.value.0))
      && (r.Some? ==> forall i :: 0 <= i < r.value.1 - 1 ==> !Judge(responses[i], default, choices).Accept?)
      && (r.None? ==> forall i :: 0 <= i < |responses| ==> !Judge(responses[i], default, choices).Accept?)
    decreases |responses|
  {
    if responses != [] && !Judge(responses[0], default, choices).Accept? {
      AnswerSpec(responses[1..], default, choices);
    }
  }

  /** The first accepted response decides the answer. */
  lemma {:induction false} AnswerAt(responses: seq<string>, default: string, choices: seq<string>, i: nat)
    requires i < |responses|
    requires forall j :: 0 <= j < i ==> !Judge(responses[j], default, choices).Accept?
    requires Judge(responses[i], default, choices).Accept?
    ensures Answer(responses, default, choices) == Some((Judge(responses[i], default, choices).value, i + 1))
    decreases i
  {
    if i > 0 {
      AnswerAt(responses[1..], default, choices, i - 1);
    }
  }

  /** An answer read after `skipped` earlier lines. */
  function After(a: Option<(string, nat)>, skipped: nat): Option<(string, nat)>
  {
    if a.None? then None else Some((a.value.0, a.value.1 + skipped))
  }

  /** A turned-down response only moves the answer one line on. */
  lemma AnswerStep(responses: seq<string>, default: string, choices: seq<string>)
    requires responses != [] && !Judge(responses[0], default, choices).Accept?
    ensures Answer(responses, default, choices) == After(Answer(responses[1..], default, choices), 1)
  {
  }

  /**
   * The read loop of `get_user_input` over the stripped responses: reads
   * until one is accepted.
   */
  method ReadAnswer(responses: seq<string>, default: string, choices: seq<string>) returns (r: Option<(string, nat)>)
    ensures r == Answer(responses, default, choices)
  {
    var i := 0;
    while i < |responses|
      invariant 0 <= i <= |responses|
      invariant Answer(responses, default, choices) == After(Answer(responses[i..], default, choices), i)
    {
      assert responses[i..][0] == responses[i];
      var reply := Judge(responses[i], default, choices);
      if reply.Accept? {
        return Some((reply.value, i + 1));
      }
      assert responses[i..][1..] == responses[i + 1..];
      AnswerStep(responses[i..], default, choices);
      i := i + 1;
    }
    assert responses[i..] == [];
    r := None;
  }

  /**
   * `get_user_input`: builds the prompt, then reads until a line is
   * accepted. Each line is stripped as it is read; stripping a line the
   * loop never reaches changes nothing, so the model strips them all first.
   */
  method GetUserInput(lines: seq<string>, prompt: string, default: string, choices: seq<string>)
    returns (shown: string, r: Option<(string, nat)>)
    ensures shown == Prompt(prompt, default, choices)
    ensures r == Answer(Responses(lines), default, choices)
  {
    shown := BuildPrompt(prompt, default, choices);
    r := ReadAnswer(Responses(lines), default, choices);
  }

  /** The answer never depends on lines after the one that was accepted. */
  lemma {:induction false} AnswerIgnoresLaterLines(responses: seq<string>, more: seq<string>, default: string, choices: seq<string>)
    requires Answer(responses, default, choices).Some?
    ensures Answer(responses + more, default, choices) == Answer(responses, default, choices)
  {
    var n := Answer(responses, default, choices).value.1;
    AnswerSpec(responses, default, choices);
    forall j | 0 <= j < n - 1
      ensures !Judge((responses + more)[j], default, choices).Accept?
    {
      assert (responses + more)[j] == responses[j];
    }
    assert (responses + more)[n - 1] == responses[n - 1];
    AnswerAt(responses + more, default, choices, n - 1);
  }

  // ---------------------------------------------------------------------------
  // Yes/no questions

  const YesWords: seq<string> := ["y", "yes", "true", "1"]

  /**
   * `get_yes_no` on one typed line: the default for an empty response, and
   * otherwise whether the lower-cased response is one of the yes words.
   */
  function YesNo(line: string, default: bool): (r: bool)
    ensures Strip(line) == "" ==> r == default
    ensures Strip(line) != "" ==> (r <==> Lower(Strip(line)) in YesWords)
  {
    var response := Lower(Strip(line));
    if response == "" then default else response in YesWords
  }

  lemma {:induction false} LowerLStrip(s: string)
    ensures LStrip(Lower(s)) == Lower(LStrip(s))
    decreases |s|
  {
    if s != [] {
      assert Lower(s)[0] == LowerChar(s[0]);
      assert IsSpace(LowerChar(s[0])) == IsSpace(s[0]);
      assert Lower(s)[1..] == Lower(s[1..]);
      LowerLStrip(s[1..]);
    }
  }

  lemma {:induction false} LowerRStrip(s: string)
    ensures RStrip(Lower(s)) == Lower(RStrip(s))
    decreases |s|
  {
    if s != [] {
      var n := |s| - 1;
      assert Lower(s)[n] == LowerChar(s[n]);
      assert IsSpace(LowerChar(s[n])) == IsSpace(s[n]);
      assert Lower(s)[..n] == Lower(s[..n]);
      LowerRStrip(s[..n]);
    }
  }

  /** A yes/no answer does not depend on the case the user typed it in. */
  lemma YesNoIgnoresCase(line: string, default: bool)
    ensures YesNo(Lower(line), default) == YesNo(line, default)
  {
    LowerLStrip(line);
    LowerRStrip(LStrip(line));
    assert Strip(Lower(line)) == Lower(Strip(line));
    LowerIdempotent(Strip(line));
  }

  /** A non-empty yes/no answer does not depend on the default. */
  lemma YesNoIgnoresDefault(line: string)
    requires Strip(line) != ""
    ensures YesNo(line, true) == YesNo(line, false)
  {
  }

  /** `get_yes_no`: reads one line, or `None` at the end of input. */
  function GetYesNo(lines: seq<string>, default: bool): (r: Option<(bool, nat)>)
    ensures lines == [] <==> r.None?
    ensures r.Some? ==> r.value.1 == 1 && r.value.0 == YesNo(lines[0], default)
  {
    if lines == [] then None else Some((YesNo(lines[0], default), 1))
  }

  // ---------------------------------------------------------------------------
  // Route paths

  /** A route path typed without a leading '/' gets one. */
  function NormaliseRoute(route: string): (r: string)
    ensures StartsWith(r, "/")
    ensures StartsWith(route, "/") ==> r == route
    ensures !StartsWith(route, "/") ==> r == "/" + route
  {
    if StartsWith(route, "/") then route else "/" + route
  }

  /** Normalising a route twice is normalising it once. */
  lemma NormaliseRouteIdempotent(route: string)
    ensures NormaliseRoute(NormaliseRoute(route)) == NormaliseRoute(route)
  {
  }

  // ---------------------------------------------------------------------------
  // Collecting a list of names until an empty line

  /**
   * The table and route loops as written: each item is read with
   * `get_user_input` and no default, and the loop leaves only when that
   * read comes back empty. `None` is the end of input.
   */
  function CollectAsWritten(responses: seq<string>): (r: Option<seq<string>>)
    decreases |responses|
  {
    var a := Answer(responses, "", []);
    if a.None? then None
    else if a.value.0 == "" then Some([])
    else
      var rest := CollectAsWritten(responses[a.value.1..]);
      if rest.None? then None else Some([a.value.0] + rest.value)
  }

  /**
   * With no default the read never returns the empty string, so the loops
   * as written never leave: pressing Enter re-prompts, and the wizard only
   * stops when the input ends.
   */
  lemma {:induction false} CollectAsWrittenNeverEnds(responses: seq<string>)
    ensures CollectAsWritten(responses) == None
    decreases |responses|
  {
    var a := Answer(responses, "", []);
    if a.Some? {
      CollectAsWrittenNeverEnds(responses[a.value.1..]);
    }
  }

  /**
   * The loops as the wizard's own text describes them ("press Enter when
   * done"): the non-empty responses up to the first empty one, with the
   * number of lines consumed including that empty line.
   */
  function Collect(responses: seq<string>): (r: Option<(seq<string>, nat)>)
    ensures r.Some? ==> 0 < r.value.1 <= |responses| && |r.value.0| == r.value.1 - 1
    ensures r.Some? ==> responses[r.value.1 - 1] == ""
    ensures r.Some? ==> r.value.0 == responses[..r.value.1 - 1]
    ensures r.None? <==> "" !in responses
    decreases |responses|
  {
    if responses == [] then None
    else if responses[0] == "" then Some(([], 1))
    else
      var rest := Collect(responses[1..]);
      if rest.None? then None
      else Some(([responses[0]] + rest.value.0, rest.value.1 + 1))
  }

  /** The first empty response ends the list. */
  lemma {:induction false} CollectStopsAt(responses: seq<string>, i: nat)
    requires i < |responses| && responses[i] == "" && "" !in responses[..i]
    ensures Collect(responses) == Some((responses[..i], i + 1))
    decreases i
  {
    if i > 0 {
      assert responses[0] == responses[..i][0];
      assert responses[1..][..i - 1] == responses[..i][1..];
      CollectStopsAt(responses[1..], i - 1);
      assert responses[..i] == [responses[0]] + responses[1..][..i - 1];
    }
  }

  /** The table loop: appends each stripped name until an empty line. */
  method CollectTables(lines: seq<string>) returns (r: Option<(seq<string>, nat)>)
    ensures r == Collect(Responses(lines))
  {
    r := CollectItems(Responses(lines));
  }

  /** The loop itself, over the stripped responses. */
  method CollectItems(responses: seq<string>) returns (r: Option<(seq<string>, nat)>)
    ensures r == Collect(responses)
  {
    var tables := [];
    var i := 0;
    while i < |responses|
      invariant 0 <= i <= |responses|
      invariant tables == responses[..i] && "" !in tables
    {
      var table := responses[i];
      if table == "" {
        CollectStopsAt(responses, i);
        return Some((tables, i + 1));
      }
      assert responses[..i + 1] == tables + [table];
      tables := tables + [table];
      i := i + 1;
    }
    assert responses == responses[..i];
    r := None;
  }

  function NormaliseRoutes(routes: seq<string>): (r: seq<string>)
    ensures |r| == |routes|
    ensures forall k :: 0 <= k < |routes| ==> r[k] == NormaliseRoute(routes[k])
  {
    seq(|routes|, k requires 0 <= k < |routes| => NormaliseRoute(routes[k]))
  }

  /**
   * The route loop: appends each stripped path, with a '/' put in front
   * when it lacks one, until an empty line.
   */
  method CollectRoutes(lines: seq<string>) returns (r: Option<(seq<string>, nat)>)
    ensures r.Some? <==> Collect(Responses(lines)).Some?
    ensures r.Some? ==> r.value == (NormaliseRoutes(Collect(Responses(lines)).value.0), Collect(Responses(lines)).value.1)
    ensures r.Some? ==> forall k :: 0 <= k < |r.value.0| ==> StartsWith(r.value.0[k], "/")
  {
    r := CollectRouteItems(Responses(lines));
  }

  /** The route loop over the stripped responses. */
  method CollectRouteItems(responses: seq<string>) returns (r: Option<(seq<string>, nat)>)
    ensures r.Some? <==> Collect(responses).Some?
    ensures r.Some? ==> r.value == (NormaliseRoutes(Collect(responses).value.0), Collect(responses).value.1)
    ensures r.Some? ==> forall k :: 0 <= k < |r.value.0| ==> StartsWith(r.value.0[k], "/")
  {
    var routes := [];
    var i := 0;
    while i < |responses|
      invariant 0 <= i <= |responses|
      invariant "" !in responses[..i]
      invariant routes == NormaliseRoutes(responses[..i])
    {
      var route := responses[i];
      if route == "" {
        CollectStopsAt(responses, i);
        return Some((routes, i + 1));
      }
      assert responses[..i + 1] == responses[..i] + [route];
      route := NormaliseRoute(route);
      routes := routes + [route];
      i := i + 1;
    }
    assert responses == responses[..i];
    r := None;
  }
}
