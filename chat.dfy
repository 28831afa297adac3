/** The interactive chat: validate, choose a provider, then read questions until "sair" or the
    end of input, answering each non-blank question through the search pipeline. */
module Chat {
  import opened Wrappers
  import opened Settings
  import opened Providers
  import opened Backends
  import Search
  import PyStr

  const ExitCommand: string := "sair"

  /** What the user sees, one event per outcome. */
  datatype ChatEvent =
    | ProviderReady(info: string)          // the selected-provider banner
    | Reprompted                          // a blank question: asked to type one
    | Answered(question: string, answer: string)
    | Goodbye                             // the exit command
    | Crashed(message: string)            // an exception caught by main and printed

  /** The exit test, on an already stripped line. */
  predicate IsExit(question: string) {
    PyStr.Lower(question) == ExitCommand
  }

  /** Each input line as the loop sees it: with whitespace stripped from both ends. */
  function Questions(lines: seq<string>): (qs: seq<string>)
    ensures |qs| == |lines| && forall j :: 0 <= j < |lines| ==> qs[j] == PyStr.Strip(lines[j])
  {
    seq(|lines|, j requires 0 <= j < |lines| => PyStr.Strip(lines[j]))
  }

  /** The event for a stripped line that is not the exit command; `t` is the prompt template
      the answers are generated with. */
  function LineEvent(t: Search.Template, question: string, p: Provider, env: Env, world: World): ChatEvent {
    if question == [] then Reprompted
    else Answered(question, Search.GenerateResponseWith(t, question, p, env, world).answer)
  }

  /** The question loop over the remaining stripped lines. */
  function Conversation(t: Search.Template, questions: seq<string>, p: Provider, env: Env, world: World): seq<ChatEvent>
    decreases |questions|
  {
    if questions == [] then [Crashed(EofMessage)]
    else if IsExit(questions[0]) then [Goodbye]
    else [LineEvent(t, questions[0], p, env, world)] + Conversation(t, questions[1..], p, env, world)
  }

  /** main, reading every line (the provider choice, then the questions) from `lines`. */
  function ChatSession(t: Search.Template, env: Env, lines: seq<string>, world: World): seq<ChatEvent> {
    match ValidateEnvironment(env)
    case Fail(message) => [Crashed(message)]
    case Pass =>
      match ProviderSelection(lines)
      case InputExhausted => [Crashed(EofMessage)]
      case Selected(p, n) => [ProviderReady(GetInfo(p, env))] + Conversation(t, Questions(lines[n..]), p, env, world)
  }

  /** The index of the first exit command, or the number of questions. */
  function FirstExit(questions: seq<string>): (k: nat)
    ensures k <= |questions|
    ensures k < |questions| ==> IsExit(questions[k])
    ensures forall j :: 0 <= j < k ==> !IsExit(questions[j])
  {
    if questions == [] then 0
    else if IsExit(questions[0]) then 0
    else 1 + FirstExit(questions[1..])
  }

  /** Every line before the first exit gives its own event, in order; the exit gives Goodbye
      and nothing after it is read; without an exit the loop ends on the EOFError. */
  lemma {:induction false} ConversationEvents(t: Search.Template, questions: seq<string>, p: Provider, env: Env, world: World)
    ensures |Conversation(t, questions, p, env, world)| == FirstExit(questions) + 1
    ensures forall j :: 0 <= j < FirstExit(questions) ==>
              Conversation(t, questions, p, env, world)[j] == LineEvent(t, questions[j], p, env, world)
    ensures Conversation(t, questions, p, env, world)[FirstExit(questions)] ==
              if FirstExit(questions) < |questions| then Goodbye else Crashed(EofMessage)
    decreases |questions|
  {
    if questions != [] && !IsExit(questions[0]) {
      var rest := questions[1..];
      ConversationEvents(t, rest, p, env, world);
      var c := Conversation(t, questions, p, env, world);
      assert c == [LineEvent(t, questions[0], p, env, world)] + Conversation(t, rest, p, env, world);
      forall j | 0 < j < FirstExit(questions)
        ensures c[j] == LineEvent(t, questions[j], p, env, world)
      {
        assert questions[j] == rest[j - 1];
      }
    }
  }

  /** Lines after the exit command are never read. */
  lemma {:induction false} NothingReadAfterExit(t: Search.Template, questions: seq<string>, more: seq<string>,
                                                p: Provider, env: Env, world: World)
    requires FirstExit(questions) < |questions|
    ensures Conversation(t, questions + more, p, env, world) == Conversation(t, questions, p, env, world)
    decreases |questions|
  {
    assert (questions + more)[0] == questions[0];
    if !IsExit(questions[0]) {
      assert (questions + more)[1..] == questions[1..] + more;
      NothingReadAfterExit(t, questions[1..], more, p, env, world);
    }
  }

  /** The exit command in any letter case: exactly the four letters s, a, i, r. */
  lemma ExitSpellings(question: string)
    ensures IsExit(question) <==>
              && |question| == 4
              && (question[0] == 's' || question[0] == 'S')
              && (question[1] == 'a' || question[1] == 'A')
              && (question[2] == 'i' || question[2] == 'I')
              && (question[3] == 'r' || question[3] == 'R')
  {
    var l := PyStr.Lower(question);
    PyStr.LowerMeaning(question);
    if |question| == 4 {
      assert l == [l[0], l[1], l[2], l[3]];
    }
  }

  /** "SAIR" ends the loop. */
  lemma ExitInCapitals()
    ensures IsExit(PyStr.Strip("SAIR"))
  {
    PyStr.StripUnchanged("SAIR");
    ExitSpellings("SAIR");
  }

  /** "Sair" with any whitespace around it ends the loop: the line is stripped before the test. */
  lemma ExitWithSurroundingSpaces(before: string, after: string)
    requires forall i :: 0 <= i < |before| ==> PyStr.IsSpace(before[i])
    requires forall i :: 0 <= i < |after| ==> PyStr.IsSpace(after[i])
    ensures IsExit(PyStr.Strip(before + "Sair" + after))
  {
    PyStr.StripPadded(before, "Sair", after);
    ExitSpellings("Sair");
  }

  /** A line of whitespace only is blank once stripped: it re-prompts and asks nothing. */
  lemma BlankLineReprompts(t: Search.Template, line: string, p: Provider, env: Env, world: World)
    requires forall i :: 0 <= i < |line| ==> PyStr.IsSpace(line[i])
    ensures !IsExit(PyStr.Strip(line))
    ensures LineEvent(t, PyStr.Strip(line), p, env, world) == Reprompted
  {
    PyStr.StripMeaning(line);
  }

  /** A configuration failure is reported before any line is read. */
  lemma ValidationBeforeChoice(t: Search.Template, env: Env, lines: seq<string>, world: World)
    requires ValidateEnvironment(env).Fail?
    ensures ChatSession(t, env, lines, world) == [Crashed(ValidateEnvironment(env).error)]
  {
  }

  /** Input that runs out before a provider is chosen ends main with the EOFError, and nothing
      else is shown. */
  lemma ExhaustedChoiceCrashes(t: Search.Template, env: Env, lines: seq<string>, world: World)
    requires ValidateEnvironment(env).Pass? && ProviderSelection(lines).InputExhausted?
    ensures ChatSession(t, env, lines, world) == [Crashed(EofMessage)]
  {
  }

  /** A choice made on line n shows the chosen family's banner, then the question loop reads
      the lines after line n, stripped: every question before the first exit gets its event. */
  lemma ChoiceStartsConversation(t: Search.Template, env: Env, lines: seq<string>, world: World)
    requires ValidateEnvironment(env).Pass? && ProviderSelection(lines).Selected?
    ensures var sel := ProviderSelection(lines);
            && ChatSession(t, env, lines, world)[0] == ProviderReady(GetInfo(sel.provider, env))
            && ChatSession(t, env, lines, world)[1..] ==
                 Conversation(t, Questions(lines[sel.consumed..]), sel.provider, env, world)
            && |ChatSession(t, env, lines, world)| == FirstExit(Questions(lines[sel.consumed..])) + 2
  {
    var sel := ProviderSelection(lines);
    ConversationEvents(t, Questions(lines[sel.consumed..]), sel.provider, env, world);
  }

  /** One turn of the loop: the first remaining line, stripped, ends the loop or gives its event. */
  lemma ConversationStep(t: Search.Template, lines: seq<string>, i: nat, p: Provider, env: Env, world: World)
    requires i < |lines|
    ensures var question := PyStr.Strip(lines[i]);
            Conversation(t, Questions(lines[i..]), p, env, world) ==
              if IsExit(question) then [Goodbye]
              else [LineEvent(t, question, p, env, world)] + Conversation(t, Questions(lines[i + 1..]), p, env, world)
  {
    assert Questions(lines[i..])[0] == PyStr.Strip(lines[i]);
    assert Questions(lines[i..])[1..] == Questions(lines[i + 1..]);
  }

  /** Appending one event to the events so far, before the rest of the conversation. */
  lemma Extend(events: seq<ChatEvent>, e: ChatEvent, rest: seq<ChatEvent>)
    ensures events + ([e] + rest) == (events + [e]) + rest
  {
  }

  /** main: validation, the provider choice, the banner, then the question loop on the lines
      left after the choice, answered with the program's prompt template. */
  method RunChat(env: Env, lines: seq<string>, world: World) returns (events: seq<ChatEvent>)
    ensures events == ChatSession(Search.PromptTemplate(), env, lines, world)
  {
    var validation := ValidateEnvironment(env);
    if validation.Fail? {
      return [Crashed(validation.error)];
    }
    var selection := GetProviderChoice(lines);
    if selection.InputExhausted? {
      return [Crashed(EofMessage)];
    }
    var p := selection.provider;
    var rest := ChatLoop(Search.PromptTemplate(), lines[selection.consumed..], p, env, world);
    events := [ProviderReady(GetInfo(p, env))] + rest;
  }

  /** The while loop of main: one event per line read, until the exit command or the end of input. */
  method ChatLoop(t: Search.Template, lines: seq<string>, p: Provider, env: Env, world: World)
    returns (events: seq<ChatEvent>)
    ensures events == Conversation(t, Questions(lines), p, env, world)
  {
    events := [];
    var i := 0;
    ghost var whole := Conversation(t, Questions(lines), p, env, world);
    assert lines[0..] == lines;
    while true
      invariant 0 <= i <= |lines|
      invariant events + Conversation(t, Questions(lines[i..]), p, env, world) == whole
      decreases |lines| - i
    {
      if i == |lines| {
        events := events + [Crashed(EofMessage)];
        return;
      }
      var question := PyStr.Strip(lines[i]);
      ConversationStep(t, lines, i, p, env, world);
      i := i + 1;
      if IsExit(question) {
        events := events + [Goodbye];
        break;
      }
      ghost var rest := Conversation(t, Questions(lines[i..]), p, env, world);
      if question == [] {
        Extend(events, Reprompted, rest);
        events := events + [Reprompted];
        continue;
      }
      var reply := Search.GenerateResponseWith(t, question, p, env, world);
      Extend(events, Answered(question, reply.answer), rest);
      events := events + [Answered(question, reply.answer)];
    }
  }
}
