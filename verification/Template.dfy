/** Command templates: `{{ variable }}` holes in an argument, filled from a task's values. */
module Templates {
  import opened Results
  import opened Text

  datatype Values = Values(
    prompt: Option<string>, model: Option<string>, workspace: Option<string>,
    taskId: Option<string>, agentId: Option<string>, directoryId: Option<string>)

  datatype RenderError = Unterminated | Unknown(variable: string) | Missing(variable: string)

  function ResolveVariable(variable: string, values: Values): (r: Result<string, RenderError>)
    ensures r.Err? ==> r.error == Unknown(variable) || r.error == Missing(variable)
  {
    if variable !in ["prompt", "model", "workspace", "task_id", "agent_id", "directory_id"] then Err(Unknown(variable))
    else
      var value :=
        if variable == "prompt" then values.prompt
        else if variable == "model" then values.model
        else if variable == "workspace" then values.workspace
        else if variable == "task_id" then values.taskId
        else if variable == "agent_id" then values.agentId
        else values.directoryId;
      match value
      case Some(text) => Ok(text)
      case None => Err(Missing(variable))
  }

  // ---- The six variables ------------------------------------------------

  /** The variable of this name is given, with this text. */
  predicate Gives(values: Values, name: string, text: string) {
    || (name == "prompt" && values.prompt == Some(text))
    || (name == "model" && values.model == Some(text))
    || (name == "workspace" && values.workspace == Some(text))
    || (name == "task_id" && values.taskId == Some(text))
    || (name == "agent_id" && values.agentId == Some(text))
    || (name == "directory_id" && values.directoryId == Some(text))
  }

  /** There is a variable of this name, and it is not given. */
  predicate Lacks(values: Values, name: string) {
    || (name == "prompt" && values.prompt == None)
    || (name == "model" && values.model == None)
    || (name == "workspace" && values.workspace == None)
    || (name == "task_id" && values.taskId == None)
    || (name == "agent_id" && values.agentId == None)
    || (name == "directory_id" && values.directoryId == None)
  }

  predicate IsVariable(name: string) {
    || name == "prompt" || name == "model" || name == "workspace"
    || name == "task_id" || name == "agent_id" || name == "directory_id"
  }

  /** A name resolves to the text of its own field; it is missing when that field is empty,
      and unknown when it is none of the six. */
  lemma ResolvesExactly(name: string, values: Values, text: string)
    ensures ResolveVariable(name, values) == Ok(text) <==> Gives(values, name, text)
    ensures ResolveVariable(name, values) == Err(Missing(name)) <==> Lacks(values, name)
    ensures ResolveVariable(name, values) == Err(Unknown(name)) <==> !IsVariable(name)
    ensures ResolveVariable(name, values).Ok? || Lacks(values, name) || !IsVariable(name)
  {
  }

  predicate IsGiven(values: Values, name: string) {
    IsVariable(name) && !Lacks(values, name)
  }

  lemma UnresolvedExactly(name: string, values: Values)
    ensures ResolveVariable(name, values).Ok? <==> IsGiven(values, name)
    ensures !IsGiven(values, name) ==>
      ResolveVariable(name, values) == Err(if IsVariable(name) then Missing(name) else Unknown(name))
  {
    ResolvesExactly(name, values, "");
  }

  // ---- Searching --------------------------------------------------------

  predicate PairAt(s: string, c: char, i: int) {
    0 <= i && i + 1 < |s| && s[i] == c && s[i + 1] == c
  }

  predicate NoPair(s: string, c: char) {
    forall i :: 0 <= i < |s| ==> !PairAt(s, c, i)
  }

  /** `find` of a doubled character: its first occurrence. */
  function FindPair(s: string, c: char): (r: Option<nat>)
    ensures r.Some? ==> PairAt(s, c, r.value) && forall i :: 0 <= i < r.value ==> !PairAt(s, c, i)
    ensures r.None? ==> NoPair(s, c)
  {
    if |s| < 2 then None
    else if s[0] == c && s[1] == c then Some(0)
    else
      assert forall i :: 1 <= i < |s| ==> (PairAt(s, c, i) <==> PairAt(s[1..], c, i - 1));
      match FindPair(s[1..], c) case Some(i) => Some(i + 1) case None => None
  }

  // ---- Templates and their meaning --------------------------------------

  /** A template taken apart: text up to the next hole, the hole's content, the rest.
      `Open` is a hole that is never closed. */
  datatype Template =
    | Plain(text: string)
    | Hole(text: string, name: string, rest: Template)
    | Open(text: string, tail: string)

  function Print(t: Template): string {
    match t
    case Plain(text) => text
    case Hole(text, name, rest) => text + "{{" + name + "}}" + Print(rest)
    case Open(text, tail) => text + "{{" + tail
  }

  /** Text has no "{{" and, before a hole, does not end in "{"; a hole's name has no
      "}}" and does not end in "}". */
  ghost predicate WellFormed(t: Template) {
    match t
    case Plain(text) => NoPair(text, '{')
    case Hole(text, name, rest) => NoPair(text + "{", '{') && NoPair(name + "}", '}') && WellFormed(rest)
    case Open(text, tail) => NoPair(text + "{", '{') && NoPair(tail, '}')
  }

  /** Text and values in order, verbatim; the first hole that cannot be filled fails. */
  function Denote(t: Template, values: Values): Result<string, RenderError> {
    match t
    case Plain(text) => Ok(text)
    case Hole(text, name, rest) =>
      (match ResolveVariable(Trim(name), values)
       case Err(e) => Err(e)
       case Ok(value) =>
         match Denote(rest, values)
         case Err(e) => Err(e)
         case Ok(tail) => Ok(text + value + tail))
    case Open(_, _) => Err(Unterminated)
  }

  function Parse(s: string): Template
    decreases |s|
  {
    match FindPair(s, '{')
    case None => Plain(s)
    case Some(i) =>
      var after := s[i + 2..];
      match FindPair(after, '}')
      case None => Open(s[..i], after)
      case Some(j) => Hole(s[..i], after[..j], Parse(after[j + 2..]))
  }

  // ---- Trimming ---------------------------------------------------------

  /** From i to j, s has all that is not white space, and begins and ends with such. */
  ghost predicate IsCore(s: string, i: int, j: int) {
    && 0 <= i <= j <= |s|
    && (forall k :: 0 <= k < i || j <= k < |s| ==> IsWhitespace(s[k]))
    && (i < j ==> !IsWhitespace(s[i]) && !IsWhitespace(s[j - 1]))
  }

  lemma {:induction false} TrimStartMeans(s: string) returns (i: nat)
    ensures i <= |s| && TrimStart(s) == s[i..] && IsBlank(s[..i]) && (i < |s| ==> !IsWhitespace(s[i]))
  {
    if s != [] && IsWhitespace(s[0]) {
      var k := TrimStartMeans(s[1..]);
      i := k + 1;
      assert s[1..][k..] == s[i..] && s[..i] == [s[0]] + s[1..][..k];
    } else {
      i := 0;
    }
  }

  lemma {:induction false} TrimEndMeans(s: string) returns (j: nat)
    ensures j <= |s| && TrimEnd(s) == s[..j] && IsBlank(s[j..]) && (j > 0 ==> !IsWhitespace(s[j - 1]))
  {
    var n := |s|;
    if s != [] && IsWhitespace(s[n - 1]) {
      j := TrimEndMeans(s[..n - 1]);
      assert s[..n - 1][..j] == s[..j] && s[j..] == s[..n - 1][j..] + [s[n - 1]];
    } else {
      j := n;
    }
  }

  /** Trimming takes the white space off both ends and leaves what is between. */
  lemma TrimMeans(s: string, n: string)
    ensures Trim(s) == n <==> exists i, j :: IsCore(s, i, j) && n == s[i..j]
  {
    var i := TrimStartMeans(s);
    var k := TrimEndMeans(s[i..]);
    var j := i + k;
    assert s[i..][..k] == s[i..j] && s[i..][k..] == s[j..];
    BlankMeans(s[..i]);
    BlankMeans(s[j..]);
    assert forall x :: j <= x < |s| ==> s[x] == s[j..][x - j];
    assert IsCore(s, i, j);
    forall i', j' | IsCore(s, i', j')
      ensures s[i'..j'] == s[i..j]
    {
      OneCore(s, i, j, i', j');
    }
  }

  lemma OneCore(s: string, i: int, j: int, i': int, j': int)
    requires IsCore(s, i, j) && IsCore(s, i', j')
    ensures s[i'..j'] == s[i..j]
  {
    assert i < j ==> !IsWhitespace(s[i]) && !IsWhitespace(s[j - 1]);
    assert i' < j' ==> !IsWhitespace(s[i']) && !IsWhitespace(s[j' - 1]);
  }

  lemma BlankMeans(s: string)
    ensures IsBlank(s) ==> forall i :: 0 <= i < |s| ==> IsWhitespace(s[i])
  {
  }

  // ---- Parsing and printing are inverse ---------------------------------

  lemma SplitAtPair(s: string, c: char)
    ensures FindPair(s, c).Some? ==>
      var i := FindPair(s, c).value;
      s == s[..i] + [c, c] + s[i + 2..] && NoPair(s[..i] + [c], c)
  {
    if FindPair(s, c).Some? {
      var i := FindPair(s, c).value;
      var prefix := s[..i + 1];
      assert s[..i] + [c] == prefix;
      forall k | 0 <= k < |prefix|
        ensures !PairAt(prefix, c, k)
      {
        assert !(k < i && PairAt(s, c, k));
      }
    }
  }

  lemma FirstPairOfJoin(a: string, c: char, b: string)
    requires NoPair(a + [c], c)
    ensures FindPair(a + [c, c] + b, c) == Some(|a|)
  {
    var s := a + [c, c] + b;
    assert PairAt(s, c, |a|);
    assert s[..|a| + 1] == a + [c];
    assert forall i :: 0 <= i < |a| && PairAt(s, c, i) ==> PairAt(a + [c], c, i);
  }

  /** Every string is the print of exactly one well-formed template. */
  lemma {:induction false} PrintOfParse(s: string)
    ensures WellFormed(Parse(s)) && Print(Parse(s)) == s
    decreases |s|
  {
    hide NoPair, FindPair;
    SplitAtPair(s, '{');
    match FindPair(s, '{')
    case None => NoneFound(s, '{');
    case Some(i) =>
      var after := s[i + 2..];
      SplitAtPair(after, '}');
      match FindPair(after, '}')
      case None => NoneFound(after, '}');
      case Some(j) =>
        PrintOfParse(after[j + 2..]);
        Rejoin(s, i, after, j);
  }

  lemma NoneFound(s: string, c: char)
    requires FindPair(s, c).None?
    ensures NoPair(s, c)
  {
  }

  lemma Rejoin(s: string, i: nat, after: string, j: nat)
    requires i + 2 <= |s| && s == s[..i] + "{{" + s[i + 2..] && after == s[i + 2..]
    requires j + 2 <= |after| && after == after[..j] + "}}" + after[j + 2..]
    ensures s == s[..i] + "{{" + after[..j] + "}}" + after[j + 2..]
  {
  }

  lemma {:induction false} ParseOfPrint(t: Template)
    requires WellFormed(t)
    ensures Parse(Print(t)) == t
  {
    match t
    case Plain(text) =>
    case Open(text, tail) =>
      FirstPairOfJoin(text, '{', tail);
      assert (text + "{{" + tail)[|text| + 2..] == tail;
    case Hole(text, name, rest) =>
      var after := name + "}}" + Print(rest);
      assert Print(t) == text + "{{" + after;
      FirstPairOfJoin(text, '{', after);
      assert Print(t)[..|text|] == text && Print(t)[|text| + 2..] == after;
      FirstPairOfJoin(name, '}', Print(rest));
      assert after[..|name|] == name && after[|name| + 2..] == Print(rest);
      ParseOfPrint(rest);
  }

  /** The conditions on text and names are exact: no other template survives the trip. */
  lemma RoundTripExactly(t: Template)
    ensures Parse(Print(t)) == t <==> WellFormed(t)
  {
    PrintOfParse(Print(t));
    if WellFormed(t) {
      ParseOfPrint(t);
    }
  }

  // ---- Rendering --------------------------------------------------------

  /** The renderer's loop computes the meaning of the parsed template. */
  method Render(input: string, values: Values) returns (r: Result<string, RenderError>)
    ensures r == Rendering(input, values)
  {
    hide ResolveVariable, Trim;
    var rendered, remaining := "", input;
    PrefixedByNothing(Denote(Parse(input), values));
    var start := FindPair(remaining, '{');
    while start.Some?
      invariant start == FindPair(remaining, '{')
      invariant Denote(Parse(input), values) == Prefixed(rendered, Denote(Parse(remaining), values))
      decreases |remaining|
    {
      HoleComesAfterText(remaining, start.value, values);
      PrefixedTwice(rendered, remaining[..start.value], FromHole(remaining, start.value, values));
      rendered := rendered + remaining[..start.value];
      var after := remaining[start.value + 2..];
      var end := FindPair(after, '}');
      if end.None? {
        return Err(Unterminated);
      }
      var value := ResolveVariable(Trim(after[..end.value]), values);
      if value.Err? {
        return Err(value.error);
      }
      PrefixedTwice(rendered, value.value, Denote(Parse(after[end.value + 2..]), values));
      rendered := rendered + value.value;
      remaining := after[end.value + 2..];
      start := FindPair(remaining, '{');
    }
    r := Ok(rendered + remaining);
  }

  /** The meaning of a template from its first hole on. */
  function FromHole(s: string, start: nat, values: Values): Result<string, RenderError>
    requires FindPair(s, '{') == Some(start)
  {
    var after := s[start + 2..];
    match FindPair(after, '}')
    case None => Err(Unterminated)
    case Some(end) =>
      match ResolveVariable(Trim(after[..end]), values)
      case Err(e) => Err(e)
      case Ok(value) => Prefixed(value, Denote(Parse(after[end + 2..]), values))
  }

  lemma HoleComesAfterText(s: string, start: nat, values: Values)
    requires FindPair(s, '{') == Some(start)
    ensures Denote(Parse(s), values) == Prefixed(s[..start], FromHole(s, start, values))
  {
    hide ResolveVariable, Trim;
    var after := s[start + 2..];
    match FindPair(after, '}')
    case None =>
    case Some(end) =>
      var value, tail := ResolveVariable(Trim(after[..end]), values), Denote(Parse(after[end + 2..]), values);
      assert value.Ok? && tail.Ok? ==> s[..start] + value.value + tail.value == s[..start] + (value.value + tail.value);
  }

  lemma PrefixedByNothing(r: Result<string, RenderError>)
    ensures Prefixed("", r) == r
  {
    assert r.Ok? ==> "" + r.value == r.value;
  }

  lemma PrefixedTwice(a: string, b: string, r: Result<string, RenderError>)
    ensures Prefixed(a, Prefixed(b, r)) == Prefixed(a + b, r)
  {
    assert r.Ok? ==> a + (b + r.value) == a + b + r.value;
  }

  function Prefixed(prefix: string, r: Result<string, RenderError>): Result<string, RenderError> {
    match r case Ok(text) => Ok(prefix + text) case Err(e) => Err(e)
  }

  /** The text is the template with every hole filled by the value of the variable it
      names, and everything else as it stands. */
  ghost predicate Fills(t: Template, values: Values, text: string) {
    match t
    case Plain(plain) => text == plain
    case Hole(before, name, rest) =>
      exists value, tail :: Gives(values, Trim(name), value) && Fills(rest, values, tail) && text == before + value + tail
    case Open(_, _) => false
  }

  lemma {:induction false} DenotesExactly(t: Template, values: Values, text: string)
    ensures Denote(t, values) == Ok(text) <==> Fills(t, values, text)
  {
    hide ResolveVariable, Trim, Gives;
    if t.Hole? {
      var name := Trim(t.name);
      forall value ensures ResolveVariable(name, values) == Ok(value) <==> Gives(values, name, value) {
        ResolvesExactly(name, values, value);
      }
      forall tail ensures Denote(t.rest, values) == Ok(tail) <==> Fills(t.rest, values, tail) {
        DenotesExactly(t.rest, values, tail);
      }
      if Denote(t, values) == Ok(text) {
        var value, tail := ResolveVariable(name, values).value, Denote(t.rest, values).value;
        assert Gives(values, name, value) && Fills(t.rest, values, tail);
      }
    }
  }

  /** Rendering undoes printing: whatever the values contain, a printed template renders
      to its text and values, joined as they are, and to nothing else. */
  lemma RenderingUndoesPrinting(t: Template, values: Values, text: string)
    requires WellFormed(t)
    ensures Rendering(Print(t), values) == Denote(t, values)
    ensures Rendering(Print(t), values) == Ok(text) <==> Fills(t, values, text)
  {
    ParseOfPrint(t);
    DenotesExactly(t, values, text);
  }

  /** Any input renders to a text exactly when the well-formed template it prints is filled so. */
  lemma RendersExactly(input: string, values: Values, text: string)
    ensures Rendering(input, values) == Ok(text) <==>
            exists t :: WellFormed(t) && Print(t) == input && Fills(t, values, text)
  {
    hide Print, Parse, WellFormed, Denote, Fills;
    PrintOfParse(input);
    DenotesExactly(Parse(input), values, text);
    forall t | WellFormed(t) && Print(t) == input ensures t == Parse(input) {
      ParseOfPrint(t);
    }
  }

  /** The names a template asks for, and whether it closes all its holes. */
  function Names(t: Template): seq<string> {
    match t
    case Hole(_, name, rest) => [Trim(name)] + Names(rest)
    case _ => []
  }

  predicate Closed(t: Template) {
    match t
    case Plain(_) => true
    case Hole(_, _, rest) => Closed(rest)
    case Open(_, _) => false
  }

  predicate Available(names: seq<string>, values: Values) {
    forall n | n in names :: IsGiven(values, n)
  }

  lemma AvailableOfCons(name: string, names: seq<string>, values: Values)
    ensures Available([name] + names, values) <==> IsGiven(values, name) && Available(names, values)
  {
    hide IsGiven;
    assert forall n :: n in [name] + names <==> n == name || n in names;
  }

  /** Rendering succeeds exactly when every hole is closed and every name known and
      given; it fails as unterminated exactly when the names before the open hole are. */
  lemma {:induction false} RenderSucceedsExactly(t: Template, values: Values)
    ensures Denote(t, values).Ok? <==> Closed(t) && Available(Names(t), values)
    ensures Denote(t, values) == Err(Unterminated) <==> !Closed(t) && Available(Names(t), values)
  {
    hide ResolveVariable, Trim, IsGiven;
    if t.Hole? {
      RenderSucceedsExactly(t.rest, values);
      UnresolvedExactly(Trim(t.name), values);
      AvailableOfCons(Trim(t.name), Names(t.rest), values);
    }
  }

  /** Any other failure is that of the first name that is not given: missing if it is one of
      the six, unknown if not. */
  lemma {:induction false} FirstFailureDecides(t: Template, values: Values)
    requires Denote(t, values).Err? && !Denote(t, values).error.Unterminated?
    ensures exists k :: FailsAt(Names(t), k, values, Denote(t, values))
  {
    hide ResolveVariable, Trim, IsGiven, IsVariable, Available;
    var names, rest := Names(t), Names(t.rest);
    assert names == [Trim(t.name)] + rest;
    UnresolvedExactly(names[0], values);
    if !IsGiven(values, names[0]) {
      NothingIsMissing(values);
      assert names[..0] == [] && FailsAt(names, 0, values, Denote(t, values));
    } else {
      FirstFailureDecides(t.rest, values);
      var k: nat :| FailsAt(rest, k, values, Denote(t, values));
      AvailableOfCons(names[0], rest[..k], values);
      assert names[..k + 1] == [names[0]] + rest[..k];
      assert FailsAt(names, k + 1, values, Denote(t, values));
    }
  }

  /** The k-th name is the first that is not given, and the failure says so. */
  ghost predicate FailsAt(names: seq<string>, k: nat, values: Values, r: Result<string, RenderError>) {
    && k < |names|
    && !IsGiven(values, names[k])
    && r == Err(if IsVariable(names[k]) then Missing(names[k]) else Unknown(names[k]))
    && Available(names[..k], values)
  }

  lemma NothingIsMissing(values: Values)
    ensures Available([], values)
  {
  }

  /** What the renderer answers. */
  function Rendering(s: string, values: Values): Result<string, RenderError> {
    Denote(Parse(s), values)
  }

  function RenderArgs(args: seq<string>, values: Values): Result<seq<string>, RenderError> {
    if args == [] then Ok([])
    else
      match RenderArgs(args[..|args| - 1], values)
      case Err(e) => Err(e)
      case Ok(texts) =>
        match Rendering(args[|args| - 1], values)
        case Err(e) => Err(e)
        case Ok(text) => Ok(texts + [text])
  }

  /** All arguments render, each to its own rendering, or the first that does not decides the error. */
  lemma {:induction false} ArgsRenderTogether(args: seq<string>, values: Values)
    ensures
      var r := RenderArgs(args, values);
      && (r.Ok? ==> |r.value| == |args| && forall i :: 0 <= i < |args| ==> Rendering(args[i], values) == Ok(r.value[i]))
      && (r.Err? ==> exists i ::
            && 0 <= i < |args|
            && Rendering(args[i], values) == Err(r.error)
            && forall j :: 0 <= j < i ==> Rendering(args[j], values).Ok?)
  {
    hide Rendering;
    if args != [] {
      var n := |args| - 1;
      var init, before := args[..n], RenderArgs(args[..n], values);
      ArgsRenderTogether(init, values);
      assert forall i :: 0 <= i < n ==> init[i] == args[i];
      if before.Err? {
        var i :|
          && 0 <= i < n
          && Rendering(init[i], values) == Err(before.error)
          && forall j :: 0 <= j < i ==> Rendering(init[j], values).Ok?;
        assert Rendering(args[i], values) == Err(before.error);
      } else {
        assert forall i :: 0 <= i < n ==> Rendering(args[i], values).Ok?;
      }
    }
  }
}
