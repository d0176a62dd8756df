/** The single-slot chatbot of `cancer_data_app.py`: every regular question is
    remembered in `last_query`, and a complaint such as "wrong answer" replays
    it through the generator and the pandas agent. */
module CancerDataApp {
  import opened Outcomes
  import opened PyStr
  import opened CodeFence

  // ------------------------------------------------------------ the cleaner

  const Backtick: set<char> := {'`'}

  /** `response.strip('`').replace("```python", "").replace("```", "").strip()`. */
  function CleanResponse(response: string): (code: string)
    ensures !Contains(code, Fence)
    ensures IsTrimmed(code, Whitespace)
  {
    var unfenced := Replace(Replace(StripChars(response, Backtick), PythonFence), Fence);
    NoFenceAfterReplace(Replace(StripChars(response, Backtick), PythonFence));
    StripCharsKeepsAbsence(unfenced, Whitespace, Fence);
    Strip(unfenced)
  }

  /** `replace("```", "")` leaves no fence behind. */
  lemma NoFenceAfterReplace(s: string)
    ensures !Contains(Replace(s, Fence), Fence)
  {
    assert FencePatterns([Fence]);
    NoFenceAfterDelete(s, [Fence]);
  }

  /** The cleaner leaves a string unchanged exactly when it holds no fence,
      has no surrounding whitespace and neither starts nor ends with a
      backtick. */
  lemma CleanResponseFixedPoints(s: string)
    ensures CleanResponse(s) == s
        <==> !Contains(s, Fence) && IsTrimmed(s, Whitespace) && IsTrimmed(s, Backtick)
  {
    if !Contains(s, Fence) && IsTrimmed(s, Whitespace) && IsTrimmed(s, Backtick) {
      CleanResponseKeeps(s);
    } else if !IsTrimmed(s, Backtick) {
      CleanResponseShortens(s);
    }
  }

  lemma CleanResponseKeeps(s: string)
    requires !Contains(s, Fence) && IsTrimmed(s, Whitespace) && IsTrimmed(s, Backtick)
    ensures CleanResponse(s) == s
  {
    StripCharsFixedPoints(s, Backtick);
    NoFenceNoPythonFence(s);
    ReplaceAbsent(s, PythonFence);
    ReplaceAbsent(s, Fence);
    StripCharsFixedPoints(s, Whitespace);
  }

  lemma ReplaceAbsent(s: string, p: string)
    requires p != [] && !Contains(s, p)
    ensures Replace(s, p) == s
  {
    DeleteMatchesAbsent(s, [p]);
  }

  lemma CleanResponseShortens(s: string)
    requires !IsTrimmed(s, Backtick)
    ensures |CleanResponse(s)| < |s|
  {
    StripCharsShortens(s, Backtick);
  }

  /** Cleaning twice is not cleaning once: a backtick hidden behind a space
      survives the first pass and is stripped by the second. */
  lemma CleanResponseNotIdempotent()
    ensures CleanResponse(" `x`") == "`x"
    ensures CleanResponse(CleanResponse(" `x`")) == "x"
  {
    CleanSpacedBacktick();
    CleanLeadingBacktick();
  }

  /** The usual shape of a model's answer keeps its language tag: `strip('`')`
      removes the fences' backticks first, so `replace("```python", "")` no
      longer finds the opening fence, and "python" is left in front of the
      code. */
  lemma CleanResponseKeepsLanguageTag()
    ensures CleanResponse("```python\nx\n```") == "python\nx"
  {
    TaggedAnswerParts();
    CleanFencedBody("```python\nx\n```", "python\nx\n", "python\nx", "\n");
  }

  lemma TaggedAnswerParts()
    ensures "```python\nx\n```" == Fence + "python\nx\n" + Fence
    ensures NoBacktick("python\nx\n") && IsTrimmed("python\nx\n", Backtick)
    ensures "python\nx\n" == "python\nx" + "\n"
    ensures IsTrimmed("python\nx", Whitespace) && AllIn("\n", Whitespace)
  {
  }

  /** A backtick-free body between two fences is cleaned to the body without
      its trailing whitespace. */
  lemma CleanFencedBody(raw: string, body: string, code: string, tail: string)
    requires raw == Fence + body + Fence && NoBacktick(body) && IsTrimmed(body, Backtick)
    requires body == code + tail && code != [] && IsTrimmed(code, Whitespace) && AllIn(tail, Whitespace)
    ensures CleanResponse(raw) == code
  {
    assert [] + code + tail == body by { assert [] + code == code; }
    StripCharsOfPadded([], code, tail, Whitespace);
    StripCharsOfPadded(Fence, body, Fence, Backtick);
    NoBacktickNoFence(body);
    CleanUnfenced(raw);
  }

  lemma CleanSpacedBacktick()
    ensures CleanResponse(" `x`") == "`x"
  {
    StripTrailingBacktick();
    NoFenceInShort(" `x");
    CleanUnfenced(" `x`");
    StripLeadingSpace();
  }

  lemma CleanLeadingBacktick()
    ensures CleanResponse("`x") == "x"
  {
    StripLeadingBacktick();
    NoFenceInShort("x");
    CleanUnfenced("`x");
    BacktickAndLetterAreNotSpace();
    StripCharsFixedPoints("x", Whitespace);
  }

  /** When stripping the backticks leaves no fence, the replacements do nothing. */
  lemma CleanUnfenced(s: string)
    requires !Contains(StripChars(s, Backtick), Fence)
    ensures CleanResponse(s) == Strip(StripChars(s, Backtick))
  {
    var stripped := StripChars(s, Backtick);
    NoFenceNoPythonFence(stripped);
    ReplaceAbsent(stripped, PythonFence);
    ReplaceAbsent(stripped, Fence);
  }

  lemma StripTrailingBacktick()
    ensures StripChars(" `x`", Backtick) == " `x"
  {
    var raw := " `x`";
    assert TrimStart(raw, Backtick) == raw;
    assert raw[..|raw| - 1] == " `x";
    assert TrimEnd(" `x", Backtick) == " `x";
  }

  lemma StripLeadingSpace()
    ensures Strip(" `x") == "`x"
  {
    BacktickAndLetterAreNotSpace();
    assert " `x" == [' '] + "`x";
    StripCharsDropsHead(' ', "`x", Whitespace);
    StripCharsFixedPoints("`x", Whitespace);
  }

  lemma StripLeadingBacktick()
    ensures StripChars("`x", Backtick) == "x"
  {
    assert "`x" == ['`'] + "x" + [];
    StripCharsOfPadded(['`'], "x", [], Backtick);
  }

  lemma BacktickAndLetterAreNotSpace()
    ensures '`' !in Whitespace && 'x' !in Whitespace && ' ' in Whitespace
  {
  }

  /** A string no longer than a fence holds none unless it is one. */
  lemma NoFenceInShort(s: string)
    requires |s| <= |Fence| && s != Fence
    ensures !Contains(s, Fence)
  {
  }

  // ------------------------------------------------------------ the trigger

  const WrongAnswer := "wrong answer"
  const Incorrect := "incorrect"
  const Rectify := "rectify"

  /** The message asks for the last answer to be corrected: its trimmed,
      lower-cased text mentions one of the three complaint phrases. */
  predicate IsCorrectionTrigger(content: string) {
    var userInput := Lower(Strip(content));
    Contains(userInput, WrongAnswer) || Contains(userInput, Incorrect) || Contains(userInput, Rectify)
  }

  /** Trimming before the search changes nothing: the phrases are found in
      the lower-cased message wherever they occur, whatever surrounds them. */
  lemma TriggerIgnoresPadding(content: string)
    ensures IsCorrectionTrigger(content)
        <==> Contains(Lower(content), WrongAnswer) || Contains(Lower(content), Incorrect)
             || Contains(Lower(content), Rectify)
  {
    LowerStripCommute(content);
    PhrasesAreTrimmed();
    StripKeepsInnerMatches(Lower(content), WrongAnswer);
    StripKeepsInnerMatches(Lower(content), Incorrect);
    StripKeepsInnerMatches(Lower(content), Rectify);
  }

  lemma PhrasesAreTrimmed()
    ensures WrongAnswer != [] && IsTrimmed(WrongAnswer, Whitespace)
    ensures Incorrect != [] && IsTrimmed(Incorrect, Whitespace)
    ensures Rectify != [] && IsTrimmed(Rectify, Whitespace)
  {
  }

  /** Letter case does not matter to the trigger. */
  lemma TriggerIgnoresCase(a: string, b: string)
    requires Lower(a) == Lower(b)
    ensures IsCorrectionTrigger(a) <==> IsCorrectionTrigger(b)
  {
    TriggerIgnoresPadding(a);
    TriggerIgnoresPadding(b);
  }

  // ------------------------------------------------------------ one analysis

  /** The inputs of the generation chain: the question and the rendered head
      of the table. */
  datatype Request = Request(query: string, preview: string)

  /** How one pass through the generator and the pandas agent ended. */
  datatype AppRun =
    | GenerationFailed(error: string)
    | AnalysisFailed(code: string, error: string)
    | Answered(code: string, result: string)

  function RunRequest(request: Request, generate: Request -> Result<string>,
                      analyze: string -> Result<string>): AppRun
  {
    match generate(request)
    case Raised(e) => GenerationFailed(e)
    case Ok(response) => RunAgent(CleanResponse(response), analyze)
  }

  /** Handing the cleaned code to the pandas agent. */
  function RunAgent(code: string, analyze: string -> Result<string>): AppRun {
    match analyze(code)
    case Raised(e) => AnalysisFailed(code, e)
    case Ok(result) => Answered(code, result)
  }

  /** A run gets past generation exactly when the generator answers; its code
      is then the cleaned answer, free of fences and trimmed, and it is
      answered exactly when the agent accepts that code. */
  lemma RunRequestCode(request: Request, generate: Request -> Result<string>, analyze: string -> Result<string>)
    ensures var run := RunRequest(request, generate, analyze);
      && (run.GenerationFailed? <==> generate(request).Raised?)
      && (!run.GenerationFailed? ==> run.code == CleanResponse(generate(request).value)
                                     && !Contains(run.code, Fence) && IsTrimmed(run.code, Whitespace))
      && (run.Answered? <==> generate(request).Ok? && analyze(run.code).Ok?)
  {
  }

  /** The regular path and the correction path differ only in their wording. */
  datatype Mode = Regular | Correction

  function CodeReply(mode: Mode, code: string): string {
    (if mode.Regular? then "Generated" else "Corrected") + " Pandas Code:\n" + PythonFence + "\n" + code + "\n" + Fence
  }

  function ResultLabel(mode: Mode): string {
    if mode.Regular? then "Execution Result:\n" else "Corrected Result:\n"
  }

  function ErrorLabel(mode: Mode): string {
    if mode.Regular? then "Error: " else "Error during correction: "
  }

  /** The messages one pass sends: the code once there is some, then the
      result or the error. */
  function RunReplies(mode: Mode, run: AppRun): seq<string> {
    if run.GenerationFailed? then [ErrorLabel(mode) + run.error]
    else [CodeReply(mode, run.code)] + OutcomeReplies(mode, run)
  }

  /** The message sent once the agent has answered or raised. */
  function OutcomeReplies(mode: Mode, run: AppRun): seq<string> {
    match run
    case GenerationFailed(_) => []
    case AnalysisFailed(_, e) => [ErrorLabel(mode) + e]
    case Answered(_, result) => [ResultLabel(mode) + result]
  }

  /** Once the generator has answered, the code is shown before the agent's outcome. */
  lemma GeneratedReplies(mode: Mode, request: Request, generate: Request -> Result<string>,
                         analyze: string -> Result<string>)
    requires generate(request).Ok?
    ensures var code := CleanResponse(generate(request).value);
      RunReplies(mode, RunRequest(request, generate, analyze))
      == [CodeReply(mode, code)] + OutcomeReplies(mode, RunAgent(code, analyze))
  {
  }

  /** One message when generation fails, two otherwise; the last one reports
      an error exactly when the generator or the agent raised, and carries the
      agent's result unchanged otherwise. */
  lemma RunRepliesShape(mode: Mode, run: AppRun)
    ensures var replies := RunReplies(mode, run);
      && |replies| == (if run.GenerationFailed? then 1 else 2)
      && (ErrorLabel(mode) <= replies[|replies| - 1] <==> !run.Answered?)
      && (!run.GenerationFailed? ==> replies[0] == CodeReply(mode, run.code))
      && (run.Answered? ==> replies[1][..|ResultLabel(mode)|] == ResultLabel(mode)
                            && replies[1][|ResultLabel(mode)|..] == run.result)
  {
    var replies := RunReplies(mode, run);
    if run.Answered? {
      var heading := ResultLabel(mode);
      assert replies[1] == heading + run.result;
      assert replies[1][..|heading|] == heading;
      assert replies[1][|heading|..] == run.result;
      assert ErrorLabel(mode)[1] != heading[1];
    }
  }

  // ------------------------------------------------------------ the handler

  const Apology := "Apologies! Let me recheck and correct the response. "
                 + "Please wait a moment."
  const NoPrevious := "I don't have a previous query to reanalyze. "
                    + "Please provide a new query."

  /** `if last_query:` — the slot is set and not the empty string. */
  predicate HasPrevious(last: Option<string>) {
    last.Some? && last.value != []
  }

  /** `last_query` after handling `content`: a complaint leaves it alone, any
      other message is stored as received, untrimmed. */
  function NextLastQuery(last: Option<string>, content: string): Option<string> {
    if IsCorrectionTrigger(content) then last else Some(content)
  }

  /** Everything `handle_message` sends for `content`, given the slot before. */
  function Replies(last: Option<string>, content: string, preview: string,
                   generate: Request -> Result<string>, analyze: string -> Result<string>): seq<string>
  {
    if IsCorrectionTrigger(content) then ComplaintReplies(last, preview, generate, analyze)
    else RunReplies(Regular, RunRequest(Request(content, preview), generate, analyze))
  }

  /** On a complaint the slot is kept and only the complaint replies are sent. */
  lemma ComplaintStep(last: Option<string>, content: string, preview: string,
                      generate: Request -> Result<string>, analyze: string -> Result<string>)
    requires IsCorrectionTrigger(content)
    ensures NextLastQuery(last, content) == last
    ensures Replies(last, content, preview, generate, analyze) == ComplaintReplies(last, preview, generate, analyze)
  {
  }

  /** Any other message is stored and analysed as a regular question. */
  lemma RegularStep(last: Option<string>, content: string, preview: string,
                    generate: Request -> Result<string>, analyze: string -> Result<string>)
    requires !IsCorrectionTrigger(content)
    ensures NextLastQuery(last, content) == Some(content)
    ensures Replies(last, content, preview, generate, analyze)
         == RunReplies(Regular, RunRequest(Request(content, preview), generate, analyze))
  {
  }

  /** What a complaint sends: the apology and a correction run of the stored
      question, or only the note that there is none. */
  function ComplaintReplies(last: Option<string>, preview: string,
                            generate: Request -> Result<string>, analyze: string -> Result<string>): seq<string>
  {
    if HasPrevious(last) then [Apology] + RunReplies(Correction, RunRequest(Request(last.value, preview), generate, analyze))
    else [NoPrevious]
  }

  /** `last_query` after a whole conversation, message by message, for a
      complaint test `complains`. */
  function LastQueryAfter(last: Option<string>, messages: seq<string>, complains: string -> bool): Option<string>
    decreases |messages|
  {
    if messages == [] then last
    else LastQueryAfter(if complains(messages[0]) then last else Some(messages[0]), messages[1..], complains)
  }

  /** Over one message the fold is the handler's own update. */
  lemma LastQueryAfterOne(last: Option<string>, m: string)
    ensures LastQueryAfter(last, [m], IsCorrectionTrigger) == NextLastQuery(last, m)
  {
    assert [m][1..] == [];
  }

  /** The latest message that was not a complaint, if any; `last` otherwise. */
  function LatestRegular(last: Option<string>, messages: seq<string>, complains: string -> bool): Option<string>
    decreases |messages|
  {
    if messages == [] then last
    else if !complains(messages[|messages| - 1]) then Some(messages[|messages| - 1])
    else LatestRegular(last, messages[..|messages| - 1], complains)
  }

  lemma {:induction false} LastQueryAfterSnoc(last: Option<string>, messages: seq<string>, m: string,
                                              complains: string -> bool)
    ensures LastQueryAfter(last, messages + [m], complains)
         == if complains(m) then LastQueryAfter(last, messages, complains) else Some(m)
    decreases |messages|
  {
    if messages == [] {
      assert [m][1..] == [];
    } else {
      assert (messages + [m])[1..] == messages[1..] + [m];
      LastQueryAfterSnoc(if complains(messages[0]) then last else Some(messages[0]), messages[1..], m, complains);
    }
  }

  /** The slot always holds the latest regular message, as received. */
  lemma {:induction false} LastQueryIsLatestRegular(last: Option<string>, messages: seq<string>,
                                                    complains: string -> bool)
    ensures LastQueryAfter(last, messages, complains) == LatestRegular(last, messages, complains)
    decreases |messages|
  {
    if messages != [] {
      var init := messages[..|messages| - 1];
      assert messages == init + [messages[|messages| - 1]];
      LastQueryAfterSnoc(last, init, messages[|messages| - 1], complains);
      LastQueryIsLatestRegular(last, init, complains);
    }
  }

  /** Complaints in a row leave the slot as it was, so each of them replays
      the same question. */
  lemma {:induction false} ComplaintsKeepLastQuery(last: Option<string>, complaints: seq<string>,
                                                   complains: string -> bool)
    requires forall k | 0 <= k < |complaints| :: complains(complaints[k])
    ensures LastQueryAfter(last, complaints, complains) == last
    decreases |complaints|
  {
    if complaints != [] {
      assert complains(complaints[0]);
      ComplaintsKeepLastQuery(last, complaints[1..], complains);
    }
  }

  /** A complaint replays, through the correction path, the latest regular
      question of the conversation, and without one only says so. */
  lemma ComplaintReplaysLatest(last: Option<string>, messages: seq<string>, complaint: string, preview: string,
                               generate: Request -> Result<string>, analyze: string -> Result<string>)
    requires IsCorrectionTrigger(complaint)
    ensures var slot := LatestRegular(last, messages, IsCorrectionTrigger);
      var replies := Replies(LastQueryAfter(last, messages, IsCorrectionTrigger), complaint, preview, generate, analyze);
      && (HasPrevious(slot) ==>
            replies[0] == Apology && replies[1..] == RunReplies(Correction, RunRequest(Request(slot.value, preview), generate, analyze)))
      && (!HasPrevious(slot) ==> replies == [NoPrevious])
  {
    LastQueryIsLatestRegular(last, messages, IsCorrectionTrigger);
  }

  // ------------------------------------------------------------ the session

  /** The module-level state of `cancer_data_app.py`: the `last_query` slot
      and the messages sent. */
  class ChatSession {
    var lastQuery: Option<string>
    var outbox: seq<string>
    /** `str(df.head())`, fixed at start-up. */
    const preview: string

    /** Start-up: no question has been asked yet. */
    constructor (preview: string)
      ensures lastQuery == None && outbox == [] && this.preview == preview
    {
      lastQuery := None;
      outbox := [];
      this.preview := preview;
    }

    /** `await cl.Message(content=text).send()`. */
    method Send(text: string)
      modifies this
      ensures outbox == old(outbox) + [text] && lastQuery == old(lastQuery)
    {
      outbox := outbox + [text];
    }

    /** `handle_message(message)`, with the generation chain and the pandas
        agent as oracles. */
    method HandleMessage(content: string, generate: Request -> Result<string>, analyze: string -> Result<string>)
      modifies this
      ensures lastQuery == NextLastQuery(old(lastQuery), content)
      ensures outbox == old(outbox) + Replies(old(lastQuery), content, preview, generate, analyze)
    {
      if IsCorrectionTrigger(content) {
        ComplaintStep(lastQuery, content, preview, generate, analyze);
        Reanalyze(generate, analyze);
        return;
      }

      RegularStep(lastQuery, content, preview, generate, analyze);
      AskRegular(content, generate, analyze);
    }

    /** The regular branch: the raw message is stored before anything can fail,
        then analysed. */
    method AskRegular(content: string, generate: Request -> Result<string>, analyze: string -> Result<string>)
      modifies this
      ensures lastQuery == Some(content)
      ensures outbox == old(outbox) + RunReplies(Regular, RunRequest(Request(content, preview), generate, analyze))
    {
      lastQuery := Some(content);
      Analyze(content, Regular, generate, analyze);
    }

    /** The complaint branch: apologise and replay the stored question, or say
        there is none; the slot itself is left alone. */
    method Reanalyze(generate: Request -> Result<string>, analyze: string -> Result<string>)
      modifies this
      ensures lastQuery == old(lastQuery)
      ensures outbox == old(outbox) + ComplaintReplies(old(lastQuery), preview, generate, analyze)
    {
      if lastQuery.Some? && lastQuery.value != [] {
        Send(Apology);
        Analyze(lastQuery.value, Correction, generate, analyze);
        AppendAssoc(old(outbox), [Apology],
                    RunReplies(Correction, RunRequest(Request(lastQuery.value, preview), generate, analyze)));
      } else {
        Send(NoPrevious);
      }
    }

    /** The `try` block shared by both paths: generate, clean, show the code,
        run it through the agent, show the result; or report the exception. */
    method Analyze(query: string, mode: Mode, generate: Request -> Result<string>, analyze: string -> Result<string>)
      modifies this
      ensures lastQuery == old(lastQuery)
      ensures outbox == old(outbox) + RunReplies(mode, RunRequest(Request(query, preview), generate, analyze))
    {
      var response := generate(Request(query, preview));
      if response.Raised? {
        Send(ErrorLabel(mode) + response.error);
        return;
      }
      var code := CleanResponse(response.value);
      GeneratedReplies(mode, Request(query, preview), generate, analyze);
      Send(CodeReply(mode, code));
      ShowAgentResult(code, mode, analyze);
      AppendAssoc(old(outbox), [CodeReply(mode, code)], OutcomeReplies(mode, RunAgent(code, analyze)));
    }

    /** `pandas_agent.run(pandas_code)` and the message that reports it. */
    method ShowAgentResult(code: string, mode: Mode, analyze: string -> Result<string>)
      modifies this
      ensures lastQuery == old(lastQuery)
      ensures outbox == old(outbox) + OutcomeReplies(mode, RunAgent(code, analyze))
    {
      var result := analyze(code);
      if result.Raised? {
        Send(ErrorLabel(mode) + result.error);
      } else {
        Send(ResultLabel(mode) + result.value);
      }
    }
  }
}