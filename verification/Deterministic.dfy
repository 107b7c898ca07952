/** The producer that reads its calls off the prompt: one line, one command, one step. */
module Deterministic {
  import opened Basics
  import opened Turns
  import opened Lines
  import opened Engine

  // ---- Commands ----

  function Commands(prompt: string): seq<string> {
    NonBlank(SplitLines(prompt))
  }

  lemma LineLengthIs(s: string, n: nat)
    requires n <= |s| && (forall i | 0 <= i < n :: !IsBreak(s[i])) && (n < |s| ==> IsBreak(s[n]))
    ensures LineLength(s) == n
  {
  }

  /** The commands of a text are those of its first line and of what follows the break. */
  lemma FirstLine(s: string, n: nat)
    requires LineLength(s) == n < |s|
    ensures Commands(s) == NonBlank([s[..n]]) + Commands(s[n..][BreakLength(s[n..])..])
  {
    NonBlankSplits([s[..n]], SplitLines(s[n..][BreakLength(s[n..])..]));
  }

  lemma OnlyLine(s: string)
    requires LineLength(s) == |s|
    ensures Commands(s) == NonBlank([s])
  {
    assert Strip("") == "";
  }

  lemma BreakEnds(a: string, more: string, n: nat)
    requires more != "" && more[0] == '\n' && n <= |a| && (n == |a| || a[n..] == "\r")
    ensures (a + more)[..n] == a[..n] && n < |a + more|
    ensures (a + more)[n..][BreakLength((a + more)[n..])..] == more[1..]
  {
    var tail := (a + more)[n..];
    assert tail == a[n..] + more;
    if n == |a| {
      assert tail == more;
    } else {
      assert tail[0] == '\r' && tail[1] == '\n';
    }
  }

  lemma BlankEnd(a: string, n: nat)
    requires LineLength(a) == n && (n == |a| || a[n..] == "\r")
    ensures Commands(a) == NonBlank([a[..n]])
  {
    if n == |a| {
      assert a[..n] == a;
      OnlyLine(a);
    } else {
      FirstLine(a, n);
      assert a[n..][BreakLength(a[n..])..] == "";
      OnlyLine("");
      assert Strip("") == "";
    }
  }

  lemma LastLineOfFirst(a: string, more: string, n: nat)
    requires LineLength(a) == n && (n == |a| || a[n..] == "\r") && more != "" && more[0] == '\n'
    requires LineLength(a + more) == n
    ensures Commands(a + more) == Commands(a) + Commands(more[1..])
  {
    BreakEnds(a, more, n);
    FirstLine(a + more, n);
    BlankEnd(a, n);
  }

  lemma SameFirstLine(a: string, rest: string, n: nat)
    requires LineLength(a) == n && (n == |a| ==> rest != "" && IsBreak(rest[0]))
    ensures LineLength(a + rest) == n
  {
    var whole := a + rest;
    assert forall i | 0 <= i < n :: whole[i] == a[i];
    assert n < |a| ==> whole[n] == a[n];
    LineLengthIs(whole, n);
  }

  /** What follows the first break of a text is the same when more text follows, unless the break itself grows. */
  lemma RestAfterBreak(a: string, more: string, n: nat)
    requires n < |a| && a[n..] != "\r"
    ensures (a + more)[..n] == a[..n]
    ensures (a + more)[n..][BreakLength((a + more)[n..])..] == a[n..][BreakLength(a[n..])..] + more
  {
    assert (a + more)[n..] == a[n..] + more;
    assert BreakLength(a[n..] + more) == BreakLength(a[n..]);
  }

  /** A line feed between two texts keeps their commands apart, even behind a carriage return. */
  lemma {:induction false} CommandsOfTwoLines(a: string, b: string)
    ensures Commands(a + "\n" + b) == Commands(a) + Commands(b)
    decreases |a|
  {
    var n, more := LineLength(a), "\n" + b;
    assert a + "\n" + b == a + more;
    SameFirstLine(a, more, n);
    if n == |a| || a[n..] == "\r" {
      LastLineOfFirst(a, more, n);
      assert more[1..] == b;
    } else {
      var rest := a[n..][BreakLength(a[n..])..];
      CommandsOfTwoLines(rest, b);
      assert rest + more == rest + "\n" + b;
      MoreBehindBreak(a, more, n, rest, Commands(b));
    }
  }

  lemma MoreBehindBreak(a: string, more: string, n: nat, rest: string, added: seq<string>)
    requires LineLength(a) == n < |a| && a[n..] != "\r" && rest == a[n..][BreakLength(a[n..])..]
    requires LineLength(a + more) == n && Commands(rest + more) == Commands(rest) + added
    ensures Commands(a + more) == Commands(a) + added
  {
    RestAfterBreak(a, more, n);
    FirstLine(a, n);
    FirstLine(a + more, n);
    Associative(NonBlank([a[..n]]), Commands(rest), added);
  }

  lemma NonBlankSplits(line: seq<string>, rest: seq<string>)
    requires |line| == 1
    ensures NonBlank(line + rest) == NonBlank(line) + NonBlank(rest)
  {
    assert (line + rest)[1..] == rest && line[1..] == [];
  }

  lemma TwoBreaks(a: string, b: string)
    ensures a + "\n\n" + b == a + "\n" + ("" + "\n" + b)
  {
    assert "\n\n" == "\n" + "\n";
  }

  /** The blank line between joined messages separates their commands. */
  lemma CommandsOfTwoMessages(a: string, b: string)
    ensures Commands(a + "\n\n" + b) == Commands(a) + Commands(b)
  {
    TwoBreaks(a, b);
    CommandsOfTwoLines(a, "" + "\n" + b);
    CommandsOfTwoLines("", b);
    OnlyLine("");
    assert NonBlank([""]) == [];
  }

  function CommandsOf(messages: seq<string>): seq<string> {
    FlatMap(messages, Commands)
  }

  lemma CommandsOfSnoc(messages: seq<string>, message: string)
    ensures CommandsOf(messages + [message]) == CommandsOf(messages) + Commands(message)
  {
    FlatMapConcat(messages, [message], Commands);
    FlatMapOne(message, Commands);
  }

  lemma {:induction false} CommandsOfJoined(messages: seq<string>)
    ensures Commands(Join(messages)) == CommandsOf(messages)
  {
    if |messages| == 1 {
      FlatMapOne(messages[0], Commands);
      assert messages == [messages[0]];
    } else if messages != [] {
      CommandsOfJoined(Front(messages));
      CommandsOfTwoMessages(Join(Front(messages)), Last(messages));
    }
  }

  lemma CommandsOfConcat(first: seq<string>, second: seq<string>)
    ensures CommandsOf(first + second) == CommandsOf(first) + CommandsOf(second)
  {
    FlatMapConcat(first, second, Commands);
  }

  /** Appending messages to a prompt appends their commands to its commands. */
  lemma AppendedCommands(prompt: string, messages: seq<string>)
    ensures Commands(AppendMessages(prompt, messages)) == Commands(prompt) + CommandsOf(messages)
  {
    if prompt == "" {
      CommandsOfJoined(messages);
    } else {
      CommandsOfJoined([prompt] + messages);
      CommandsOfConcat([prompt], messages);
      FlatMapOne(prompt, Commands);
    }
  }

  lemma OneCommand()
    ensures Commands("read") == ["read"]
  {
    OnlyLine("read");
    assert TrimLeft("read") == "read" && TrimRight("read") == "read";
  }

  // ---- Producing ----

  /** What a command line asks for; the resolver itself is a parameter, and None stands for its exception. */
  datatype Instruction = Instruction(toolName: string, arguments: map<string, Json>)

  type Resolver = string -> Option<Instruction>

  function Unidentified(i: Instruction): ToolCall {
    ToolCall(i.toolName, i.arguments, None)
  }

  function TextOf(output: Option<string>): string {
    if output.Some? then output.value else ""
  }

  function Preview(s: string): string {
    if |s| <= 200 then s else s[..200]
  }

  /** The turn for a request; None stands for an exception. `slash` tells that the prompt came from a slash command. */
  function Produce(resolve: Resolver, slash: bool, request: TurnRequest): (plan: Option<TurnPlan>)
  {
    var step := request.runStep;
    var facts := [LoopStepFact(step, Plan), ModelTurnFact(step, request.prompt)];
    if step < 1 then None
    else if step == 1 && slash then Some(FinalTurn(request.prompt, facts + [ResponseReadyFact(Preview(request.prompt))], None))
    else
      var commands := Commands(request.prompt);
      if commands == [] then None
      else if step - 1 < |commands| then
        var instruction := resolve(commands[step - 1]);
        if instruction.None? then None else Some(ToolTurn([Unidentified(instruction.value)], facts, None))
      else if request.context.views == [] then None
      else
        var output := TextOf(Last(request.context.views).output);
        Some(FinalTurn(output, facts + [LoopStepFact(step + 1, Finalize), ResponseReadyFact(output)], None))
  }
}
