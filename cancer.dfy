/** The chat handler of `cancer.py`: it keeps a conversation history (and a
    persisted copy of it), answers two reserved commands, and otherwise runs a
    question through code generation, execution and a second analysis agent. */
module Cancer {
  import opened Outcomes
  import opened PyStr
  import opened CodeFence

  datatype Role = User | Assistant

  /** One stored turn of the conversation: `{"role": ..., "content": ...}`. */
  datatype Turn = Turn(role: Role, content: string)

  /** The contents of the turns, in arrival order. */
  function Contents(turns: seq<Turn>): (cs: seq<string>)
    ensures |cs| == |turns|
    ensures forall k | 0 <= k < |turns| :: cs[k] == turns[k].content
  {
    seq(|turns|, k requires 0 <= k < |turns| => turns[k].content)
  }

  // ------------------------------------------------------------ code cleaner

  /** The fence alternatives of the pattern ```` ```(?:python)? ````, longest first. */
  const FencePattern: seq<string> := [PythonFence, Fence]

  /** `re.sub(r"```(?:python)?", "", response).strip()`: the generated code with
      every fence deleted and the surrounding whitespace removed. */
  function CleanCode(response: string): (code: string)
    ensures !Contains(code, Fence)
    ensures IsTrimmed(code, Whitespace)
  {
    PythonFenceStartsWithFence();
    var unfenced := DeleteMatches(response, FencePattern);
    NoFenceAfterDelete(response, FencePattern);
    StripCharsKeepsAbsence(unfenced, Whitespace, Fence);
    Strip(unfenced)
  }

  /** The cleaner leaves exactly the fence-free, trimmed strings unchanged. */
  lemma CleanCodeFixedPoints(s: string)
    ensures CleanCode(s) == s <==> !Contains(s, Fence) && IsTrimmed(s, Whitespace)
  {
    if !Contains(s, Fence) && IsTrimmed(s, Whitespace) {
      PythonFenceStartsWithFence();
      NoFenceNoPythonFence(s);
      DeleteMatchesAbsent(s, FencePattern);
      StripCharsFixedPoints(s, Whitespace);
    }
  }

  /** Cleaning twice is cleaning once. */
  lemma CleanCodeIdempotent(response: string)
    ensures CleanCode(CleanCode(response)) == CleanCode(response)
  {
    CleanCodeFixedPoints(CleanCode(response));
  }

  /** The cleaner skips an opening Python fence as a whole. */
  lemma DeleteOpeningFence(rest: string)
    ensures DeleteMatches(PythonFence + rest, FencePattern) == DeleteMatches(rest, FencePattern)
  {
    var s := PythonFence + rest;
    assert MatchLength(s, FencePattern) == |PythonFence|;
    assert s[|PythonFence|..] == rest;
  }

  /** A body without a fence, followed by a closing fence, loses exactly the
      three backticks of that fence: backticks at the end of the body merge with
      it, but the scan deletes only the first three and keeps the rest. */
  lemma {:induction false} DeleteClosingFence(body: string)
    requires !Contains(body, Fence)
    ensures DeleteMatches(body + Fence, FencePattern) == body
    decreases |body|
  {
    PythonFenceStartsWithFence();
    var s := body + Fence;
    if body == [] {
      assert s == Fence;
      DeleteFence(FencePattern);
    } else if Fence <= s {
      TrailingBackticks(body);
    } else {
      KeepsBodyHead(body);
      DeleteClosingFence(body[1..]);
      assert [body[0]] + body[1..] == body;
    }
  }

  /** Where the closing fence has not begun, the scan keeps the body's first
      character and goes on with a shorter body free of fences. */
  lemma KeepsBodyHead(body: string)
    requires body != [] && !Contains(body, Fence) && !(Fence <= body + Fence)
    ensures !Contains(body[1..], Fence)
    ensures DeleteMatches(body + Fence, FencePattern) == [body[0]] + DeleteMatches(body[1..] + Fence, FencePattern)
  {
    var s := body + Fence;
    PythonFenceStartsWithFence();
    KeepsUnfencedHead(s, FencePattern);
    TailOfAppend(body, Fence);
    assert s[0] == body[0];
    NoFenceInTail(body);
  }

  lemma NoFenceInTail(body: string)
    requires body != [] && !Contains(body, Fence)
    ensures !Contains(body[1..], Fence)
  {
    if Contains(body[1..], Fence) {
      ContainsSlice(body, 1, body[1..], Fence);
    }
  }

  /** When the closing fence starts inside the body, the body is one or two
      backticks, and the scan deletes three backticks and keeps the others. */
  lemma TrailingBackticks(body: string)
    requires body != [] && !Contains(body, Fence) && Fence <= body + Fence
    ensures DeleteMatches(body + Fence, FencePattern) == body
  {
    var s := body + Fence;
    if |body| >= 3 {
      assert body[0..][..3] == s[..3];
      assert OccursAt(body, Fence, 0);
    }
    assert forall i | 0 <= i < |body| :: body[i] == '`' by {
      forall i | 0 <= i < |body| ensures body[i] == '`' {
        assert s[i] == Fence[i];
      }
    }
    assert !(PythonFence <= s) by { assert |s| < |PythonFence|; }
    assert MatchLength(s, FencePattern) == 3;
    assert s[3..] == body;
    assert forall k | 0 <= k < |FencePattern| :: !Contains(body, FencePattern[k]);
    DeleteMatchesAbsent(body, FencePattern);
  }

  /** A fenced Python block whose body holds no fence is reduced to its body,
      trimmed. */
  lemma CleanCodeUnwrapsBlock(body: string)
    requires !Contains(body, Fence)
    ensures CleanCode(PythonFence + body + Fence) == Strip(body)
  {
    var raw := PythonFence + body + Fence;
    PythonFenceStartsWithFence();
    assert raw == PythonFence + (body + Fence);
    DeleteOpeningFence(body + Fence);
    DeleteClosingFence(body);
    assert DeleteMatches(raw, FencePattern) == body;
  }

  /** The usual shape of a model's answer: the fences and the language tag go,
      the code stays. */
  lemma CleanCodeDropsLanguageTag()
    ensures CleanCode("```python\nx\n```") == "x"
  {
    TaggedAnswerParts();
    NoBacktickNoFence("\nx\n");
    CleanCodeUnwrapsPadded("```python\nx\n```", "\nx\n", "\n", "x", "\n");
  }

  lemma TaggedAnswerParts()
    ensures "```python\nx\n```" == PythonFence + "\nx\n" + Fence
    ensures NoBacktick("\nx\n") && "\nx\n" == "\n" + "x" + "\n"
    ensures IsTrimmed("x", Whitespace) && AllIn("\n", Whitespace)
  {
  }

  /** Code padded with whitespace inside a Python block is cleaned to the code. */
  lemma CleanCodeUnwrapsPadded(raw: string, body: string, pre: string, code: string, post: string)
    requires raw == PythonFence + body + Fence && !Contains(body, Fence)
    requires body == pre + code + post && AllIn(pre, Whitespace) && AllIn(post, Whitespace)
    requires code != [] && IsTrimmed(code, Whitespace)
    ensures CleanCode(raw) == code
  {
    StripCharsOfPadded(pre, code, post, Whitespace);
    CleanCodeUnwrapsBlock(body);
  }

  // ------------------------------------------------------------ result message

  const ResultLabel := "Execution Result:\n"
  const OutputLabel := "Printed Output:\n"
  const NoOutputMessage := "Execution completed, " + "but no result or printed output was produced."

  /** What the executed code produced: the `result` variable (rendered with
      `str`, or None when unset) and everything it printed. */
  datatype Execution = Execution(result: Option<string>, stdout: string)

  /** The user-facing text for an execution. */
  function ResultMessage(result: Option<string>, stdout: string): string {
    if result.None? && Strip(stdout) == [] then NoOutputMessage
    else if result.Some? then ResultLabel + result.value
    else OutputLabel + Strip(stdout)
  }

  /** The message says which of the three cases happened, and carries the
      result or the trimmed output unchanged: a set result wins over anything
      printed, and only a missing result with blank output gives the fixed text. */
  lemma ResultMessageCases(result: Option<string>, stdout: string)
    ensures var m := ResultMessage(result, stdout);
      && (ResultLabel <= m <==> result.Some?)
      && (OutputLabel <= m <==> result.None? && Strip(stdout) != [])
      && (m == NoOutputMessage <==> result.None? && Strip(stdout) == [])
      && (result.Some? ==> m[|ResultLabel|..] == result.value)
      && (result.None? && Strip(stdout) != [] ==> m[|OutputLabel|..] == Strip(stdout))
  {
    var m := ResultMessage(result, stdout);
    assert !(ResultLabel <= NoOutputMessage) by { assert NoOutputMessage[10] != ResultLabel[10]; }
    assert !(OutputLabel <= NoOutputMessage) by { assert NoOutputMessage[0] != OutputLabel[0]; }
    if result.Some? {
      assert !(OutputLabel <= m) by { assert m[0] == ResultLabel[0] != OutputLabel[0]; }
      assert m != NoOutputMessage;
    } else if Strip(stdout) != [] {
      assert !(ResultLabel <= m) by { assert m[0] == OutputLabel[0] != ResultLabel[0]; }
      assert m != NoOutputMessage;
    }
  }

  /** Printed output is only looked at through `strip()`: padding it with
      whitespace does not change the message. */
  lemma ResultMessageIgnoresPadding(result: Option<string>, stdout: string)
    ensures ResultMessage(result, Strip(stdout)) == ResultMessage(result, stdout)
  {
    var printed := Strip(stdout);
    StripCharsFixedPoints(printed, Whitespace);
    assert Strip(printed) == printed;
    if result.None? {
      if printed == [] {
        assert ResultMessage(result, printed) == NoOutputMessage;
      } else {
        assert ResultMessage(result, printed) == OutputLabel + printed;
      }
    }
  }

  // ------------------------------------------------------------ history rendering

  const HistoryHeader := " **Conversation History:**\n\n"

  /** The block for the `number`-th turn, whatever its role: its number line,
      its content line and a rule. */
  function HistoryBlock(number: nat, content: string): string {
    NumberLine(number) + AskedLine(content) + Rule
  }

  function NumberLine(number: nat): string {
    "**Conversation " + Decimal(number) + ":**\n"
  }

  function AskedLine(content: string): string {
    " **You asked:** " + content + "\n"
  }

  const Rule := "---\n"

  /** One block per turn, numbered from 1 in arrival order. */
  function HistoryBlocks(turns: seq<Turn>): (blocks: seq<string>)
    ensures |blocks| == |turns|
    ensures forall k | 0 <= k < |turns| :: blocks[k] == HistoryBlock(k + 1, turns[k].content)
  {
    seq(|turns|, k requires 0 <= k < |turns| => HistoryBlock(k + 1, turns[k].content))
  }

  /** The reply to "show conversation history": the header, then the blocks. */
  function RenderedHistory(turns: seq<Turn>): string {
    HistoryHeader + Join(HistoryBlocks(turns), "")
  }

  /** Rendering one more turn appends its block. */
  lemma HistoryGrows(turns: seq<Turn>, i: nat)
    requires i < |turns|
    ensures Join(HistoryBlocks(turns[..i + 1]), "")
         == Join(HistoryBlocks(turns[..i]), "") + HistoryBlock(i + 1, turns[i].content)
  {
    var blocks := HistoryBlocks(turns[..i]);
    var block := HistoryBlock(i + 1, turns[i].content);
    assert HistoryBlocks(turns[..i + 1]) == blocks + [block];
    JoinSnoc(blocks, block, "");
    assert Join(blocks, "") + "" == Join(blocks, "");
  }

  /** The `for i, msg in enumerate(conversation_history, 1)` loop that builds
      `formatted_history` with `+=`. */
  method FormatHistory(turns: seq<Turn>) returns (text: string)
    ensures text == RenderedHistory(turns)
  {
    text := HistoryHeader;
    var i := 0;
    while i < |turns|
      invariant 0 <= i <= |turns|
      invariant text == HistoryHeader + Join(HistoryBlocks(turns[..i]), "")
    {
      ghost var before := text;
      var number := i + 1;
      text := text + NumberLine(number);
      text := text + AskedLine(turns[i].content);
      text := text + Rule;
      AppendAssoc(before, NumberLine(number), AskedLine(turns[i].content));
      AppendAssoc(before, NumberLine(number) + AskedLine(turns[i].content), Rule);
      HistoryGrows(turns, i);
      AppendAssoc(HistoryHeader, Join(HistoryBlocks(turns[..i]), ""), HistoryBlock(number, turns[i].content));
      i := i + 1;
    }
    assert turns[..i] == turns;
  }

  // ------------------------------------------------------------ commands

  const ShowCommand := "show conversation history"
  const DeleteCommand := "delete conversation history"
  const ClearedMessage := "Conversation history has been cleared."

  /** What a stripped message asks for. */
  datatype Command = ShowHistory | DeleteHistory | Query

  function Classify(query: string): Command {
    var lowered := Lower(query);
    if lowered == ShowCommand then ShowHistory
    else if lowered == DeleteCommand then DeleteHistory
    else Query
  }

  /** Reserved commands are recognised whatever the letter case and whatever
      whitespace surrounds them. */
  lemma ClassifyIgnoresCaseAndPadding(a: string, b: string)
    requires Strip(Lower(a)) == Strip(Lower(b))
    ensures Classify(Strip(a)) == Classify(Strip(b))
  {
    LowerStripCommute(a);
    LowerStripCommute(b);
  }

  predicate IsShowTurn(t: Turn) {
    t.role == User && Classify(t.content) == ShowHistory
  }

  // ------------------------------------------------------------ the query pipeline

  /** The inputs of the code-generation prompt: the question, the rendered head
      of the table, and the conversation so far. */
  datatype Prompt = Prompt(query: string, preview: string, history: string)

  /** How a regular query ended. `RunFailed` covers an exception from the
      executed code and one from the analysis agent alike: in both the
      computed result message is dropped. */
  datatype QueryRun =
    | GenerationFailed(error: string)
    | RunFailed(code: string, error: string)
    | Answered(code: string, message: string, analysis: string)

  function RunQuery(prompt: Prompt, generate: Prompt -> Result<string>,
                    execute: string -> Result<Execution>, analyze: string -> Result<string>): QueryRun
  {
    match generate(prompt)
    case Raised(e) => GenerationFailed(e)
    case Ok(response) => RunCode(CleanCode(response), execute, analyze)
  }

  /** Executing the cleaned code, then handing it to the analysis agent. */
  function RunCode(code: string, execute: string -> Result<Execution>, analyze: string -> Result<string>): QueryRun {
    match execute(code)
    case Raised(e) => RunFailed(code, e)
    case Ok(run) =>
      match analyze(code)
      case Raised(e) => RunFailed(code, e)
      case Ok(analysis) => Answered(code, ResultMessage(run.result, run.stdout), analysis)
  }

  /** Once generation succeeded, the code is stored and shown before the outcome. */
  lemma RunCodeAnswers(code: string, execute: string -> Result<Execution>, analyze: string -> Result<string>)
    ensures var run := RunCode(code, execute, analyze);
      && AnswerTurns(run) == [Turn(Assistant, code)] + OutcomeTurns(run)
      && QueryReplies(run) == [CodeMessage(code)] + OutcomeReplies(run)
  {
  }

  const ErrorLabel := "Error executing query: "

  function CodeMessage(code: string): string {
    "Generated Pandas Code:\n```" + code + "\n```"
  }

  /** The assistant turns a regular query stores after the question: the cleaned
      code once generation succeeded, then the result message or the error. */
  function AnswerTurns(run: QueryRun): seq<Turn> {
    if run.GenerationFailed? then [Turn(Assistant, ErrorLabel + run.error)]
    else [Turn(Assistant, run.code)] + OutcomeTurns(run)
  }

  /** The turn stored once the code has run. */
  function OutcomeTurns(run: QueryRun): seq<Turn> {
    match run
    case GenerationFailed(_) => []
    case RunFailed(_, e) => [Turn(Assistant, ErrorLabel + e)]
    case Answered(_, message, _) => [Turn(Assistant, message)]
  }

  /** The turns a regular query adds to the history. */
  function QueryTurns(query: string, run: QueryRun): seq<Turn> {
    [Turn(User, query)] + AnswerTurns(run)
  }

  /** The messages a regular query sends. */
  function QueryReplies(run: QueryRun): seq<string> {
    if run.GenerationFailed? then [ErrorLabel + run.error]
    else [CodeMessage(run.code)] + OutcomeReplies(run)
  }

  /** The messages sent once the code has run. */
  function OutcomeReplies(run: QueryRun): seq<string> {
    match run
    case GenerationFailed(_) => []
    case RunFailed(_, e) => [ErrorLabel + e]
    case Answered(_, message, analysis) => [message, "Agent Analysis:\n" + analysis]
  }

  /** No result message can be mistaken for an error report. */
  lemma ResultMessageIsNoError(result: Option<string>, stdout: string)
    ensures !(ErrorLabel <= ResultMessage(result, stdout))
  {
    var m := ResultMessage(result, stdout);
    ResultMessageCases(result, stdout);
    assert ErrorLabel[1] != NoOutputMessage[1];
    assert ErrorLabel[0] != OutputLabel[0];
    assert ErrorLabel[1] != ResultLabel[1];
  }

  /** An exception from the analysis agent throws away the result message that
      the run already computed: only the error is stored and sent. */
  lemma AgentFailureDropsResult(code: string, execute: string -> Result<Execution>,
                                analyze: string -> Result<string>)
    requires execute(code).Ok? && analyze(code).Raised?
    ensures var run := RunCode(code, execute, analyze);
      var message := ResultMessage(execute(code).value.result, execute(code).value.stdout);
      && OutcomeTurns(run) == [Turn(Assistant, ErrorLabel + analyze(code).error)]
      && OutcomeReplies(run) == [ErrorLabel + analyze(code).error]
      && message !in OutcomeReplies(run)
  {
    var message := ResultMessage(execute(code).value.result, execute(code).value.stdout);
    ResultMessageIsNoError(execute(code).value.result, execute(code).value.stdout);
    assert ErrorLabel <= ErrorLabel + analyze(code).error;
  }

  /** A regular query adds the user's turn and then assistant turns only: two when
      generation fails, three otherwise. The last one reports an error exactly
      when some step raised; on success the three turns are the question, the
      cleaned code and the result message. */
  lemma QueryTurnsShape(query: string, prompt: Prompt, generate: Prompt -> Result<string>,
                        execute: string -> Result<Execution>, analyze: string -> Result<string>)
    ensures var run := RunQuery(prompt, generate, execute, analyze);
      var turns := QueryTurns(query, run);
      && |turns| == (if run.GenerationFailed? then 2 else 3)
      && turns[0] == Turn(User, query)
      && (forall k | 1 <= k < |turns| :: turns[k].role == Assistant)
      && (ErrorLabel <= turns[|turns| - 1].content <==> !run.Answered?)
      && (run.Answered? ==> turns == [Turn(User, query), Turn(Assistant, run.code), Turn(Assistant, run.message)])
  {
    var run := RunQuery(prompt, generate, execute, analyze);
    if run.Answered? {
      var execution := execute(run.code).value;
      assert run.message == ResultMessage(execution.result, execution.stdout);
      ResultMessageIsNoError(execution.result, execution.stdout);
    }
    TurnsOfRun(query, run);
  }

  lemma TurnsOfRun(query: string, run: QueryRun)
    requires run.Answered? ==> !(ErrorLabel <= run.message)
    ensures var turns := QueryTurns(query, run);
      && |turns| == (if run.GenerationFailed? then 2 else 3)
      && turns[0] == Turn(User, query)
      && (forall k | 1 <= k < |turns| :: turns[k].role == Assistant)
      && (ErrorLabel <= turns[|turns| - 1].content <==> !run.Answered?)
      && (run.Answered? ==> turns == [Turn(User, query), Turn(Assistant, run.code), Turn(Assistant, run.message)])
  {
  }

  /** The code of a run that got past generation is the cleaned answer of the
      generator to the prompt it was given: free of fences and trimmed. */
  lemma RunQueryCode(prompt: Prompt, generate: Prompt -> Result<string>,
                     execute: string -> Result<Execution>, analyze: string -> Result<string>)
    ensures var run := RunQuery(prompt, generate, execute, analyze);
      && (run.GenerationFailed? <==> generate(prompt).Raised?)
      && (!run.GenerationFailed? ==> run.code == CleanCode(generate(prompt).value)
                                     && !Contains(run.code, Fence) && IsTrimmed(run.code, Whitespace))
      && (run.Answered? <==> generate(prompt).Ok? && execute(run.code).Ok? && analyze(run.code).Ok?)
  {
    match generate(prompt)
    case Raised(_) =>
    case Ok(response) =>
      var code := CleanCode(response);
      assert RunQuery(prompt, generate, execute, analyze) == RunCode(code, execute, analyze);
  }

  /** The context sent to the generator lists the earlier turns in arrival order
      and ends with the current question on its own line. */
  lemma {:induction false} ContextEndsWithQuery(history: seq<Turn>, query: string)
    ensures Join(Contents(history + [Turn(User, query)]), "\n")
         == if history == [] then query else Join(Contents(history), "\n") + "\n" + query
  {
    assert Contents(history + [Turn(User, query)]) == Contents(history) + [query];
    JoinSnoc(Contents(history), query, "\n");
  }

  /** The question stored first and the answer turns appended after it make
      up the query's turns. */
  lemma AskedThenAnswered(before: seq<Turn>, query: string, run: QueryRun)
    ensures (before + [Turn(User, query)]) + AnswerTurns(run) == before + QueryTurns(query, run)
  {
    AppendAssoc(before, [Turn(User, query)], AnswerTurns(run));
  }

  // ------------------------------------------------------------ the session

  /** The persisted copy is a prefix of the history; what follows it are
      "show conversation history" requests, the only turns never saved. */
  ghost predicate SavedUpTo(saved: seq<Turn>, history: seq<Turn>) {
    saved <= history && AllShowTurns(history[|saved|..])
  }

  /** Every turn is a "show conversation history" request. */
  ghost predicate AllShowTurns(turns: seq<Turn>)
    decreases |turns|
  {
    turns == [] || (AllShowTurns(turns[..|turns| - 1]) && IsShowTurn(turns[|turns| - 1]))
  }

  /** A history just saved is up to date. */
  lemma SavedUpToItself(history: seq<Turn>)
    ensures SavedUpTo(history, history)
  {
    assert history[|history|..] == [];
  }

  /** A show request appended to the history keeps the persisted copy valid. */
  lemma ShowKeepsSaved(saved: seq<Turn>, history: seq<Turn>, query: string)
    requires SavedUpTo(saved, history) && Classify(query) == ShowHistory
    ensures SavedUpTo(saved, history + [Turn(User, query)])
  {
    var unsaved := history[|saved|..];
    var asked := history + [Turn(User, query)];
    assert asked[|saved|..] == unsaved + [Turn(User, query)];
    assert (unsaved + [Turn(User, query)])[..|unsaved|] == unsaved;
  }

  /** The module-level state of `cancer.py`: `conversation_history`, the copy
      last written by `save_conversation_history`, and the messages sent. */
  class ChatSession {
    var history: seq<Turn>
    ghost var saved: seq<Turn>
    var outbox: seq<string>
    /** `str(df.head())`, fixed at start-up. */
    const preview: string

    /** The saved copy keeps up with the history, up to show requests. */
    ghost predicate Valid()
      reads this
    {
      SavedUpTo(saved, history)
    }

    /** Start-up: the history is what `load_conversation_history` read. */
    constructor (stored: seq<Turn>, preview: string)
      ensures Valid()
      ensures history == stored && saved == stored && outbox == [] && this.preview == preview
    {
      history := stored;
      saved := stored;
      outbox := [];
      this.preview := preview;
      SavedUpToItself(stored);
    }

    /** `save_conversation_history(conversation_history)`. */
    method Save()
      modifies this
      ensures saved == history
      ensures history == old(history) && outbox == old(outbox)
    {
      saved := history;
    }

    /** `await cl.Message(content=text).send()`. */
    method Send(text: string)
      modifies this
      ensures outbox == old(outbox) + [text]
      ensures history == old(history) && saved == old(saved)
    {
      outbox := outbox + [text];
    }

    /** The `except` clause of `main`. */
    method ReportError(error: string)
      modifies this
      ensures history == old(history) + [Turn(Assistant, ErrorLabel + error)] && saved == history
      ensures outbox == old(outbox) + [ErrorLabel + error]
    {
      history := history + [Turn(Assistant, ErrorLabel + error)];
      Save();
      Send(ErrorLabel + error);
    }

    /** The `try` block of `main`, entered with the question already stored. */
    method AnswerQuery(query: string, generate: Prompt -> Result<string>,
                       execute: string -> Result<Execution>, analyze: string -> Result<string>)
      modifies this
      ensures var run := RunQuery(Prompt(query, preview, Join(Contents(old(history)), "\n")), generate, execute, analyze);
        history == old(history) + AnswerTurns(run) && saved == history
        && outbox == old(outbox) + QueryReplies(run)
    {
      var prompt := Prompt(query, preview, Join(Contents(history), "\n"));
      var response := generate(prompt);
      if response.Raised? {
        ReportError(response.error);
        return;
      }
      var code := CleanCode(response.value);
      ghost var run := RunCode(code, execute, analyze);
      assert RunQuery(prompt, generate, execute, analyze) == run;
      ShowCode(code);
      ExecuteCode(code, execute, analyze);
      RunCodeAnswers(code, execute, analyze);
      AppendAssoc(old(history), [Turn(Assistant, code)], OutcomeTurns(run));
      AppendAssoc(old(outbox), [CodeMessage(code)], OutcomeReplies(run));
    }

    /** Storing and showing the cleaned code. */
    method ShowCode(code: string)
      modifies this
      ensures history == old(history) + [Turn(Assistant, code)] && saved == history
      ensures outbox == old(outbox) + [CodeMessage(code)]
    {
      history := history + [Turn(Assistant, code)];
      Save();
      Send(CodeMessage(code));
    }

    /** The rest of the `try` block, once the code has been stored and shown. */
    method ExecuteCode(code: string, execute: string -> Result<Execution>, analyze: string -> Result<string>)
      modifies this
      ensures var run := RunCode(code, execute, analyze);
        run.code == code
        && history == old(history) + OutcomeTurns(run) && saved == history
        && outbox == old(outbox) + OutcomeReplies(run)
    {
      var run := execute(code);
      if run.Raised? {
        ReportError(run.error);
        return;
      }
      var message := ResultMessage(run.value.result, run.value.stdout);

      var analysis := analyze(code);
      if analysis.Raised? {
        ReportError(analysis.error);
        return;
      }
      history := history + [Turn(Assistant, message)];
      Save();
      Send(message);
      Send("Agent Analysis:\n" + analysis.value);
    }

    /** `main(message)`, with the generator, `exec` and the agent as oracles. */
    method HandleMessage(content: string, generate: Prompt -> Result<string>,
                         execute: string -> Result<Execution>, analyze: string -> Result<string>)
      requires Valid()
      modifies this
      ensures Valid()
      ensures var query := Strip(content);
        var asked := old(history) + [Turn(User, query)];
        match Classify(query)
        case ShowHistory =>
          history == asked && saved == old(saved) && outbox == old(outbox) + [RenderedHistory(asked)]
        case DeleteHistory =>
          history == [] && saved == [] && outbox == old(outbox) + [ClearedMessage]
        case Query =>
          var run := RunQuery(Prompt(query, preview, Join(Contents(asked), "\n")), generate, execute, analyze);
          history == old(history) + QueryTurns(query, run) && saved == history
          && outbox == old(outbox) + QueryReplies(run)
    {
      var query := Strip(content);
      Respond(query, generate, execute, analyze);
    }

    /** The rest of `main` once the message has been stripped: store it, then
        answer the command or run the query. */
    method Respond(query: string, generate: Prompt -> Result<string>,
                   execute: string -> Result<Execution>, analyze: string -> Result<string>)
      requires Valid()
      modifies this
      ensures Valid()
      ensures var asked := old(history) + [Turn(User, query)];
        match Classify(query)
        case ShowHistory =>
          history == asked && saved == old(saved) && outbox == old(outbox) + [RenderedHistory(asked)]
        case DeleteHistory =>
          history == [] && saved == [] && outbox == old(outbox) + [ClearedMessage]
        case Query =>
          var run := RunQuery(Prompt(query, preview, Join(Contents(asked), "\n")), generate, execute, analyze);
          history == old(history) + QueryTurns(query, run) && saved == history
          && outbox == old(outbox) + QueryReplies(run)
    {
      history := history + [Turn(User, query)];
      ghost var asked := history;

      match Classify(query)
      case ShowHistory =>
        ShowKeepsSaved(old(saved), old(history), query);
        ShowConversation();
      case DeleteHistory =>
        ClearConversation();
        SavedUpToItself([]);
      case Query =>
        ghost var run := RunQuery(Prompt(query, preview, Join(Contents(asked), "\n")), generate, execute, analyze);
        AnswerQuery(query, generate, execute, analyze);
        AskedThenAnswered(old(history), query, run);
        SavedUpToItself(history);
    }

    /** The "show conversation history" branch of `main`, entered with the
        request already stored. "No conversation history yet" cannot be sent:
        the history holds at least the request. */
    method ShowConversation()
      requires |history| > 0
      modifies this
      ensures history == old(history) && saved == old(saved)
      ensures outbox == old(outbox) + [RenderedHistory(history)]
    {
      var text := FormatHistory(history);
      Send(text);
    }

    /** The "delete conversation history" branch of `main`: the history is
        emptied and the empty history saved. */
    method ClearConversation()
      modifies this
      ensures history == [] && saved == [] && outbox == old(outbox) + [ClearedMessage]
    {
      history := [];
      Save();
      Send(ClearedMessage);
    }
  }
}
