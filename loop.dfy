/**
 * The iteration engine of `src/lib/loop.js` (`runLoop`).
 *
 * The file system is a value: what reading prd.json yields (`PrdFile`) and
 * what reading progress.txt yields (None when the read fails). The agent is
 * an oracle: its n-th run delivers an event trace to the executor and leaves
 * prd.json and progress.txt in some state. The calls the engine makes on its
 * reporter are recorded, in order, as a log of `ReportCall`s.
 *
 * `Run` states what one `runLoop` call does, one iteration at a time
 * (`Step`, `Drive`); `RunLoop` is the loop itself, proved to agree with it.
 */
module Loop {

  import opened Wrappers
  import opened Text
  import opened Prd
  import opened Prompt
  import Agent

  /** What reading and parsing prd.json yields. */
  datatype PrdFile = Readable(doc: Document) | Unreadable(reason: string)

  /** The options of `runLoop` that the engine uses. */
  datatype Config = Config(agent: string, maxIterations: int, maxRetries: int, timeout: nat)

  /** The defaults `runLoop` applies: agent "claude", 25 iterations, 3 retries, 10 minutes. */
  const Defaults: Config := Config("claude", 25, 3, 10 * 60 * 1000)

  /** What one agent run does: the events the executor sees, and the two files afterwards. */
  datatype AgentStep = AgentStep(events: seq<Agent.Event>, prdAfter: PrdFile, progressAfter: Option<string>)

  /**
   * The world the engine runs in: the exit code of `which` for the agent's
   * command, the two files at the start, and the agent's n-th run.
   */
  datatype Env = Env(whichExit: Option<int>, prd: PrdFile, progress: Option<string>, agentAt: nat -> AgentStep)

  /** The calls the engine makes on its reporter, with their arguments. */
  datatype ReportCall =
    | ErrorCall(message: string)
    | StartCall(agent: string, maxIterations: int, prd: Document)
    | CompleteCall(prd: Document)
    | SkipCall(story: Story, reason: string)
    | StoryStartCall(story: Story, iteration: nat, attempt: nat, remaining: nat)
    | OutputCall(text: string)
    | StoryEndCall(story: Story, result: Agent.ExecResult)
    | StoryPassCall(story: Story, duration: nat)
    | StoryFailCall(story: Story, result: Agent.ExecResult)
    | MaxIterationsCall(maxIterations: int)

  /** The arguments of one `buildStoryPrompt(prd, story, {progressLog, attempt})` call. */
  datatype PromptArgs = PromptArgs(prd: Document, story: Story, progressLog: string, attempt: nat) {
    /** The prompt text these arguments build. */
    function Text(): string {
      BuildStoryPrompt(prd, story, progressLog, attempt)
    }
  }

  /**
   * One agent invocation: the story, its attempt number, the arguments its
   * prompt was built from (the agent is given `prompt.Text()`), and whether
   * the story's count was reset afterwards.
   */
  datatype AgentRun = AgentRun(storyId: string, attempt: nat, prompt: PromptArgs, reset: bool)

  /** What `runLoop` resolves with. */
  datatype LoopResult = Succeeded(iterations: nat) | Failed(error: string)

  /** The end of a run: the result, the reporter calls, the agent runs and prd.json as left. */
  datatype Finished = Finished(result: LoopResult, log: seq<ReportCall>, runs: seq<AgentRun>, prd: PrdFile)

  /** The engine's variables between iterations. */
  datatype State = State(
    iteration: nat,
    /** `storyAttempts`: attempts per story id since its last success. */
    attempts: map<string, nat>,
    prd: PrdFile,
    progress: Option<string>,
    log: seq<ReportCall>,
    runs: seq<AgentRun>)

  datatype StepResult = Next(next: State) | Done(finished: Finished)

  const AgentNotAvailable: string := "Agent not available"
  const PrdLoadFailed: string := "PRD load failed"
  const MaxIterationsReached: string := "Max iterations reached"

  function NotFoundMessage(agent: string): string {
    "Agent '" + agent + "' not found. Install it first."
  }

  function LoadFailedMessage(reason: string): string {
    "Failed to load prd.json: " + reason
  }

  function AgentErrorMessage(message: string): string {
    "Agent error: " + message
  }

  function SkipReason(maxRetries: int): string {
    "Max retries (" + IntToString(maxRetries) + ") exceeded"
  }

  // ---------------------------------------------------------------------
  // Selection and attempts
  // ---------------------------------------------------------------------

  /** `prd.stories.filter((s) => !s.passes)`. */
  function Incomplete(stories: seq<Story>): (r: seq<Story>)
    ensures |r| + CountPassing(stories) == |stories|
    ensures forall i :: 0 <= i < |r| ==> !r[i].passes
    decreases |stories|
  {
    if |stories| == 0 then []
    else if stories[0].passes then Incomplete(stories[1..])
    else [stories[0]] + Incomplete(stories[1..])
  }

  /** The incomplete stories are exactly the stories with `passes` false. */
  lemma {:induction false} IncompleteMembers(stories: seq<Story>)
    ensures forall x :: x in Incomplete(stories) <==> x in stories && !x.passes
    decreases |stories|
  {
    if |stories| > 0 {
      assert stories == [stories[0]] + stories[1..];
      IncompleteMembers(stories[1..]);
    }
  }

  /**
   * The filter keeps order: the incomplete stories of two lists in a row are
   * those of the first, then those of the second.
   */
  lemma {:induction false} IncompleteAppend(a: seq<Story>, b: seq<Story>)
    ensures Incomplete(a + b) == Incomplete(a) + Incomplete(b)
    decreases |a|
  {
    if |a| > 0 {
      assert (a + b)[1..] == a[1..] + b;
      IncompleteAppend(a[1..], b);
    } else {
      assert a + b == b;
    }
  }

  /**
   * The index of the story `incompleteStories.sort((a, b) => a.priority -
   * b.priority)[0]` picks: the sort is stable, so among the stories with
   * `passes` false it is the first one of least priority. `blocked` plays no
   * part. None when every story passes.
   */
  function SelectNext(stories: seq<Story>): (r: Option<nat>)
    ensures r.None? <==> forall j :: 0 <= j < |stories| ==> stories[j].passes
    ensures r.Some? ==> r.value < |stories| && !stories[r.value].passes
    ensures r.Some? ==> forall j :: 0 <= j < |stories| && !stories[j].passes ==> stories[r.value].priority <= stories[j].priority
    ensures r.Some? ==> forall j :: 0 <= j < r.value && !stories[j].passes ==> stories[r.value].priority < stories[j].priority
    decreases |stories|
  {
    if |stories| == 0 then None
    else
      var rest := SelectNext(stories[1..]);
      if stories[0].passes then
        (if rest.None? then None else Some(rest.value + 1))
      else if rest.Some? && stories[rest.value + 1].priority < stories[0].priority then Some(rest.value + 1)
      else Some(0)
  }

  /** Least priority among the incomplete stories, earliest on ties, singles out one story. */
  lemma SelectNextUnique(stories: seq<Story>, k: nat)
    requires k < |stories| && !stories[k].passes
    requires forall j :: 0 <= j < |stories| && !stories[j].passes ==> stories[k].priority <= stories[j].priority
    requires forall j :: 0 <= j < k && !stories[j].passes ==> stories[k].priority < stories[j].priority
    ensures SelectNext(stories) == Some(k)
  {
    var r := SelectNext(stories);
    assert r.Some?;
    assert stories[r.value].priority <= stories[k].priority;
    assert r.value >= k;
    assert r.value <= k;
  }

  /** Two story lists that agree on `passes` and `priority` select the same index, whatever else differs. */
  lemma {:induction false} SelectNextReadsOnlyPassesAndPriority(a: seq<Story>, b: seq<Story>)
    requires |a| == |b|
    requires forall j :: 0 <= j < |a| ==> a[j].passes == b[j].passes && a[j].priority == b[j].priority
    ensures SelectNext(a) == SelectNext(b)
    decreases |a|
  {
    if |a| > 0 {
      SelectNextReadsOnlyPassesAndPriority(a[1..], b[1..]);
    }
  }

  /** `storyAttempts[id] || 0`. */
  function Attempts(attempts: map<string, nat>, id: string): nat {
    if id in attempts then attempts[id] else 0
  }

  /** prd.json after `story.blocked = true` and the rewrite: only that story's `blocked` changes. */
  function MarkBlocked(doc: Document, k: nat): (r: Document)
    requires k < |doc.stories|
    ensures |r.stories| == |doc.stories| && r.stories[k].blocked
    ensures forall j :: 0 <= j < |doc.stories| && j != k ==> r.stories[j] == doc.stories[j]
    ensures r.stories[k].(blocked := doc.stories[k].blocked) == doc.stories[k]
    ensures r.(stories := doc.stories) == doc
  {
    doc.(stories := doc.stories[k := doc.stories[k].(blocked := true)])
  }

  /** Marking a story blocked does not change which story is selected next. */
  lemma BlockedStoryStillSelected(doc: Document, k: nat)
    requires k < |doc.stories|
    ensures SelectNext(MarkBlocked(doc, k).stories) == SelectNext(doc.stories)
  {
    SelectNextReadsOnlyPassesAndPriority(MarkBlocked(doc, k).stories, doc.stories);
  }

  /** `updatedPrd.stories.find((s) => s.id === id)?.passes`. */
  function StoryPasses(doc: Document, id: string): (r: bool)
    ensures r <==> exists j :: (0 <= j < |doc.stories| && doc.stories[j].id == id && doc.stories[j].passes
                                && forall i :: 0 <= i < j ==> doc.stories[i].id != id)
  {
    match FindById(doc.stories, id)
    case None => false
    case Some(j) => doc.stories[j].passes
  }

  // ---------------------------------------------------------------------
  // One iteration
  // ---------------------------------------------------------------------

  /** The `onOutput` calls for a run of chunks: each chunk's text goes to `reporter.output`. */
  function Outputs(chunks: seq<Agent.Chunk>): (r: seq<ReportCall>)
    ensures |r| == |chunks|
    ensures forall i :: 0 <= i < |r| ==> r[i] == OutputCall(chunks[i].text)
  {
    seq(|chunks|, i requires 0 <= i < |chunks| => OutputCall(chunks[i].text))
  }

  /** What the engine reports once `runAgent` settles: `storyEnd` on success, the agent error otherwise. */
  function Settled(story: Story, outcome: Agent.Outcome): ReportCall {
    match outcome
    case Resolved(result) => StoryEndCall(story, result)
    case Rejected(message) => ErrorCall(AgentErrorMessage(message))
  }

  /**
   * The report after the re-read of prd.json: pass or fail by the story's
   * `passes` flag; a failed re-read is caught like an agent error. Nothing
   * when the run itself was rejected.
   */
  function Verdict(story: Story, outcome: Agent.Outcome, file: PrdFile): seq<ReportCall> {
    if outcome.Rejected? then []
    else match file
      case Unreadable(reason) => [ErrorCall(AgentErrorMessage(reason))]
      case Readable(updated) =>
        if StoryPasses(updated, story.id) then [StoryPassCall(story, outcome.result.duration)]
        else [StoryFailCall(story, outcome.result)]
  }

  /**
   * The reporter calls from the start of `runAgent` on: the output chunks
   * called back before it settled, how it settled, the chunks called back
   * after that, and the verdict after the re-read.
   */
  function RunReports(story: Story, x: Agent.Observation, file: PrdFile): seq<ReportCall> {
    Outputs(x.early) + [Settled(story, x.outcome)] + Outputs(x.late) + Verdict(story, x.outcome, file)
  }

  /** Whether the run counts as a success: it resolved and the re-read story passes. */
  function Passed(outcome: Agent.Outcome, file: PrdFile, id: string): bool {
    outcome.Resolved? && file.Readable? && StoryPasses(file.doc, id)
  }

  /**
   * The part of an iteration that runs the agent on story k of `doc`, at
   * attempt n, after the iteration counter and the attempt count were bumped.
   */
  function RunStory(cfg: Config, env: Env, s: State, doc: Document, k: nat, n: nat): State
    requires k < |doc.stories|
  {
    var story := doc.stories[k];
    var prompt := PromptArgs(doc, story, LoadProgress(s.progress), n);
    var step := env.agentAt(|s.runs|);
    var x := Agent.Observe(cfg.agent, cfg.timeout, step.events);
    var passed := Passed(x.outcome, step.prdAfter, story.id);
    State(
      s.iteration,
      if passed then s.attempts[story.id := 0] else s.attempts,
      step.prdAfter,
      step.progressAfter,
      s.log + [StoryStartCall(story, s.iteration, n, |Incomplete(doc.stories)|)]
        + RunReports(story, x, step.prdAfter),
      s.runs + [AgentRun(story.id, n, prompt, passed)])
  }

  /**
   * One pass of the `while` body: reload prd.json (abort on failure), finish
   * when no story is incomplete, otherwise select a story, bump its count, and
   * either mark it blocked (count above `maxRetries`) or run the agent on it.
   */
  function Step(cfg: Config, env: Env, s: State): (r: StepResult)
    requires s.iteration < cfg.maxIterations
    ensures r.Next? ==> r.next.iteration == s.iteration + 1 && |s.runs| <= |r.next.runs| <= |s.runs| + 1
    ensures r.Done? ==> r.finished.runs == s.runs
  {
    var i := s.iteration + 1;
    match s.prd
    case Unreadable(reason) =>
      Done(Finished(Failed(PrdLoadFailed), s.log + [ErrorCall(LoadFailedMessage(reason))], s.runs, s.prd))
    case Readable(doc) =>
      match SelectNext(doc.stories)
      case None => Done(Finished(Succeeded(i), s.log + [CompleteCall(doc)], s.runs, s.prd))
      case Some(k) =>
        var story := doc.stories[k];
        var n := Attempts(s.attempts, story.id) + 1;
        var bumped := s.(iteration := i, attempts := s.attempts[story.id := n]);
        if n > cfg.maxRetries then
          Next(bumped.(prd := Readable(MarkBlocked(doc, k)),
                       log := s.log + [SkipCall(story, SkipReason(cfg.maxRetries))]))
        else Next(RunStory(cfg, env, bumped, doc, k, n))
  }

  /** The iterations from state s on, until one ends the loop or `maxIterations` is reached. */
  function Drive(cfg: Config, env: Env, s: State): Finished
    decreases cfg.maxIterations - s.iteration
  {
    if s.iteration >= cfg.maxIterations then
      Finished(Failed(MaxIterationsReached), s.log + [MaxIterationsCall(cfg.maxIterations)], s.runs, s.prd)
    else
      match Step(cfg, env, s)
      case Next(s') => Drive(cfg, env, s')
      case Done(f) => f
  }

  function Initial(cfg: Config, env: Env, doc: Document): State {
    State(0, map[], env.prd, env.progress, [StartCall(cfg.agent, cfg.maxIterations, doc)], [])
  }

  /** What `runLoop(options)` does. */
  function Run(cfg: Config, env: Env): Finished {
    if !Agent.IsAgentAvailable(cfg.agent, env.whichExit) then
      Finished(Failed(AgentNotAvailable), [ErrorCall(NotFoundMessage(cfg.agent))], [], env.prd)
    else
      match env.prd
      case Unreadable(reason) =>
        Finished(Failed(PrdLoadFailed), [ErrorCall(LoadFailedMessage(reason))], [], env.prd)
      case Readable(doc) => Drive(cfg, env, Initial(cfg, env, doc))
  }

  // ---------------------------------------------------------------------
  // The loop
  // ---------------------------------------------------------------------

  /**
   * The re-read of prd.json after a resolved run (`try` block of the loop):
   * report pass or fail by the story's `passes` flag, or the caught error.
   */
  method Reread(story: Story, outcome: Agent.Outcome, file: PrdFile) returns (calls: seq<ReportCall>, passed: bool)
    ensures calls == Verdict(story, outcome, file)
    ensures passed == Passed(outcome, file, story.id)
  {
    calls, passed := [], false;
    if outcome.Resolved? {
      match file {
        case Unreadable(reason) =>
          calls := [ErrorCall(AgentErrorMessage(reason))];
        case Readable(updated) =>
          if StoryPasses(updated, story.id) {
            calls := [StoryPassCall(story, outcome.result.duration)];
            passed := true;
          } else {
            calls := [StoryFailCall(story, outcome.result)];
          }
      }
    }
  }

  /**
   * `buildStoryPrompt` then `runAgent(prompt, {agent, timeout, onOutput})`:
   * the agent is given the prompt text the arguments build; what the loop
   * sees of the run does not depend on that text.
   */
  method PromptAgent(cfg: Config, args: PromptArgs, events: seq<Agent.Event>) returns (seen: Agent.Observation)
    ensures seen == Agent.Observe(cfg.agent, cfg.timeout, events)
  {
    var prompt := BuildStoryPrompt(args.prd, args.story, args.progressLog, args.attempt);
    var x := Agent.RunAgent(prompt, cfg.agent, cfg.timeout, events);
    seen := x.seen;
  }

  /**
   * The agent part of one `while` body: report the story start, build the
   * prompt from the progress excerpt, run the agent, report how it settled,
   * re-read prd.json and report pass or fail, resetting the count on a pass.
   */
  method RunStoryOnce(cfg: Config, env: Env, s: State, doc: Document, k: nat, n: nat) returns (s': State)
    requires k < |doc.stories|
    ensures s' == RunStory(cfg, env, s, doc, k, n)
  {
    var story := doc.stories[k];
    var start := StoryStartCall(story, s.iteration, n, |Incomplete(doc.stories)|);
    var args := PromptArgs(doc, story, LoadProgress(s.progress), n);
    var step := env.agentAt(|s.runs|);
    var seen := PromptAgent(cfg, args, step.events);
    var reports := Outputs(seen.early) + [Settled(story, seen.outcome)] + Outputs(seen.late);
    var verdict, passed := Reread(story, seen.outcome, step.prdAfter);
    var attempts := s.attempts;
    if passed {
      attempts := attempts[story.id := 0];
    }
    s' := State(s.iteration, attempts, step.prdAfter, step.progressAfter,
                s.log + [start] + (reports + verdict), s.runs + [AgentRun(story.id, n, args, passed)]);
  }

  /**
   * One pass of the `while` body on the engine's variables: reload, select,
   * bump the count, then skip (mark blocked and rewrite prd.json) or run.
   */
  method Iterate(cfg: Config, env: Env, s: State) returns (r: StepResult)
    requires s.iteration < cfg.maxIterations
    ensures r == Step(cfg, env, s)
  {
    var iteration := s.iteration + 1;
    if s.prd.Unreadable? {
      return Done(Finished(Failed(PrdLoadFailed), s.log + [ErrorCall(LoadFailedMessage(s.prd.reason))], s.runs, s.prd));
    }
    var doc := s.prd.doc;
    var pick := SelectNext(doc.stories);
    if pick.None? {
      return Done(Finished(Succeeded(iteration), s.log + [CompleteCall(doc)], s.runs, s.prd));
    }
    var k := pick.value;
    var story := doc.stories[k];
    var n := Attempts(s.attempts, story.id) + 1;
    var bumped := s.(iteration := iteration, attempts := s.attempts[story.id := n]);
    if n > cfg.maxRetries {
      var blocked := MarkBlocked(doc, k);
      return Next(bumped.(prd := Readable(blocked), log := s.log + [SkipCall(story, SkipReason(cfg.maxRetries))]));
    }
    var next := RunStoryOnce(cfg, env, bumped, doc, k, n);
    return Next(next);
  }

  /**
   * `runLoop(options)`: the availability check and first load, then the
   * `while (iteration < maxIterations)` loop.
   */
  method RunLoop(cfg: Config, env: Env) returns (f: Finished)
    ensures f == Run(cfg, env)
  {
    var available := Agent.IsAgentAvailable(cfg.agent, env.whichExit);
    if !available {
      return Finished(Failed(AgentNotAvailable), [ErrorCall(NotFoundMessage(cfg.agent))], [], env.prd);
    }
    if env.prd.Unreadable? {
      return Finished(Failed(PrdLoadFailed), [ErrorCall(LoadFailedMessage(env.prd.reason))], [], env.prd);
    }
    var s := Initial(cfg, env, env.prd.doc);
    while s.iteration < cfg.maxIterations
      invariant Drive(cfg, env, s) == Run(cfg, env)
      decreases cfg.maxIterations - s.iteration
    {
      var r := Iterate(cfg, env, s);
      match r {
        case Done(finished) => return finished;
        case Next(next) => s := next;
      }
    }
    f := Finished(Failed(MaxIterationsReached), s.log + [MaxIterationsCall(cfg.maxIterations)], s.runs, s.prd);
  }
}
