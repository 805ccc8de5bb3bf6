/**
 * What the iteration engine of `src/lib/loop.js` guarantees, stated about
 * the specification functions of module `Loop` (`Step`, `Drive`, `Run`),
 * which `Loop.RunLoop` is proved to follow.
 */
module LoopProperties {

  import opened Wrappers
  import opened Prd
  import opened Prompt
  import opened Loop
  import Agent

  // ---------------------------------------------------------------------
  // One iteration
  // ---------------------------------------------------------------------

  /**
   * An iteration ends the loop exactly when prd.json cannot be loaded at
   * its top or no story is left with `passes` false. A rejected agent run
   * and a failed re-read after the run never end it.
   */
  lemma StepStopsOnlyOnLoadFailureOrCompletion(cfg: Config, env: Env, s: State)
    requires s.iteration < cfg.maxIterations
    ensures Step(cfg, env, s).Done? <==> s.prd.Unreadable? || SelectNext(s.prd.doc.stories).None?
    ensures s.prd.Unreadable? ==>
      Step(cfg, env, s) == Done(Finished(Failed(PrdLoadFailed), s.log + [ErrorCall(LoadFailedMessage(s.prd.reason))], s.runs, s.prd))
    ensures s.prd.Readable? && SelectNext(s.prd.doc.stories).None? ==>
      Step(cfg, env, s) == Done(Finished(Succeeded(s.iteration + 1), s.log + [CompleteCall(s.prd.doc)], s.runs, s.prd))
  {
  }

  /**
   * A selection whose bumped count exceeds `maxRetries`: the story is
   * reported skipped, prd.json is rewritten with only that story's `blocked`
   * set, the agent is not run, and only that story's count changes (by one).
   */
  lemma SkipStep(cfg: Config, env: Env, s: State)
    requires s.iteration < cfg.maxIterations && s.prd.Readable?
    requires SelectNext(s.prd.doc.stories).Some?
    requires var doc := s.prd.doc; Attempts(s.attempts, doc.stories[SelectNext(doc.stories).value].id) + 1 > cfg.maxRetries
    ensures var doc := s.prd.doc; var k := SelectNext(doc.stories).value; var id := doc.stories[k].id;
      && Step(cfg, env, s).Next?
      && var s' := Step(cfg, env, s).next;
      && s'.iteration == s.iteration + 1
      && s'.prd == Readable(MarkBlocked(doc, k))
      && s'.runs == s.runs
      && s'.progress == s.progress
      && s'.log == s.log + [SkipCall(doc.stories[k], SkipReason(cfg.maxRetries))]
      && Attempts(s'.attempts, id) == Attempts(s.attempts, id) + 1
      && forall other :: other != id ==> Attempts(s'.attempts, other) == Attempts(s.attempts, other)
  {
  }

  /**
   * A selection whose bumped count n is within `maxRetries`: one agent run
   * is recorded for the story at attempt n, with the prompt built for
   * attempt n from the progress tail; the story's count is 0 afterwards if
   * the run resolved and the re-read story passes, and n otherwise; no
   * other story's count changes.
   */
  lemma RunStep(cfg: Config, env: Env, s: State)
    requires s.iteration < cfg.maxIterations && s.prd.Readable?
    requires SelectNext(s.prd.doc.stories).Some?
    requires var doc := s.prd.doc; Attempts(s.attempts, doc.stories[SelectNext(doc.stories).value].id) + 1 <= cfg.maxRetries
    ensures var doc := s.prd.doc; var story := doc.stories[SelectNext(doc.stories).value];
      var n := Attempts(s.attempts, story.id) + 1; var step := env.agentAt(|s.runs|);
      var reset := Passed(Agent.Observe(cfg.agent, cfg.timeout, step.events).outcome, step.prdAfter, story.id);
      && Step(cfg, env, s).Next?
      && var s' := Step(cfg, env, s).next;
      && s'.iteration == s.iteration + 1
      && s'.runs == s.runs + [AgentRun(story.id, n, PromptArgs(doc, story, LoadProgress(s.progress), n), reset)]
      && Attempts(s'.attempts, story.id) == (if reset then 0 else n)
      && (forall other :: other != story.id ==> Attempts(s'.attempts, other) == Attempts(s.attempts, other))
  {
  }

  /**
   * The same iteration's reports and files: the story start (with the
   * iteration number, the attempt and the number of incomplete stories),
   * then the reports of the run; afterwards the engine sees prd.json and
   * progress.txt as the agent left them.
   */
  lemma RunStepReports(cfg: Config, env: Env, s: State)
    requires s.iteration < cfg.maxIterations && s.prd.Readable?
    requires SelectNext(s.prd.doc.stories).Some?
    requires var doc := s.prd.doc; Attempts(s.attempts, doc.stories[SelectNext(doc.stories).value].id) + 1 <= cfg.maxRetries
    ensures var doc := s.prd.doc; var story := doc.stories[SelectNext(doc.stories).value];
      var n := Attempts(s.attempts, story.id) + 1; var step := env.agentAt(|s.runs|);
      && Step(cfg, env, s).Next?
      && var s' := Step(cfg, env, s).next;
      && s'.log == s.log + [StoryStartCall(story, s.iteration + 1, n, |Incomplete(doc.stories)|)]
                   + RunReports(story, Agent.Observe(cfg.agent, cfg.timeout, step.events), step.prdAfter)
      && s'.prd == step.prdAfter && s'.progress == step.progressAfter
  {
  }

  /**
   * The reports of one agent run, in order: the chunks called back before
   * it settled, then how it settled (`storyEnd`, or the agent error when
   * it rejected, the iteration's calls then ending with the late chunks),
   * then for a resolved run the verdict of the re-read: the caught error
   * when prd.json cannot be read, otherwise pass iff the story's first
   * entry has `passes` set.
   */
  lemma IterationReports(story: Story, x: Agent.Observation, file: PrdFile)
    ensures var r := RunReports(story, x, file);
      && |r| > |x.early|
      && r[..|x.early|] == Outputs(x.early)
      && (x.outcome.Rejected? ==>
            r == Outputs(x.early) + [ErrorCall(AgentErrorMessage(x.outcome.message))] + Outputs(x.late))
      && (x.outcome.Resolved? ==>
            && |r| == |x.early| + 1 + |x.late| + 1
            && r[|x.early|] == StoryEndCall(story, x.outcome.result)
            && r[|r| - 1] == match file
                             case Unreadable(reason) => ErrorCall(AgentErrorMessage(reason))
                             case Readable(doc) =>
                               if StoryPasses(doc, story.id) then StoryPassCall(story, x.outcome.result.duration)
                               else StoryFailCall(story, x.outcome.result))
  {
    var r := RunReports(story, x, file);
    assert r == Outputs(x.early) + ([Settled(story, x.outcome)] + Outputs(x.late) + Verdict(story, x.outcome, file));
  }

  // ---------------------------------------------------------------------
  // A story out of retries
  // ---------------------------------------------------------------------

  /**
   * The engine is stuck on story k: prd.json loads, story k is the one
   * selected, and its count already reached `maxRetries`.
   */
  predicate StuckOn(cfg: Config, s: State, k: nat) {
    && s.prd.Readable?
    && SelectNext(s.prd.doc.stories) == Some(k)
    && Attempts(s.attempts, s.prd.doc.stories[k].id) >= cfg.maxRetries
  }

  /**
   * Selection does not look at `blocked`: a skipped story that is still the
   * least-priority incomplete one is selected again, skipped again, and the
   * agent is not run.
   */
  lemma SkippedStoryIsSkippedAgain(cfg: Config, env: Env, s: State, k: nat)
    requires s.iteration < cfg.maxIterations && StuckOn(cfg, s, k)
    ensures Step(cfg, env, s).Next?
    ensures var s' := Step(cfg, env, s).next;
      && StuckOn(cfg, s', k)
      && s'.prd.doc.stories[k].blocked
      && s'.runs == s.runs
      && s'.log == s.log + [SkipCall(s.prd.doc.stories[k], SkipReason(cfg.maxRetries))]
  {
    var doc := s.prd.doc;
    BlockedStoryStillSelected(doc, k);
    SkipStep(cfg, env, s);
  }

  /**
   * Once the engine is stuck on a story, no agent runs again and the loop
   * ends with "Max iterations reached", however many other stories remain.
   */
  lemma {:induction false} StuckUntilMaxIterations(cfg: Config, env: Env, s: State, k: nat)
    requires StuckOn(cfg, s, k)
    ensures Drive(cfg, env, s).result == Failed(MaxIterationsReached)
    ensures Drive(cfg, env, s).runs == s.runs
    decreases cfg.maxIterations - s.iteration
  {
    if s.iteration < cfg.maxIterations {
      SkippedStoryIsSkippedAgain(cfg, env, s, k);
      StuckUntilMaxIterations(cfg, env, Step(cfg, env, s).next, k);
    }
  }

  // ---------------------------------------------------------------------
  // Retries between resets
  // ---------------------------------------------------------------------

  /** How many runs of story `id` there were since its last run that passed. */
  function Open(runs: seq<AgentRun>, id: string): nat
    decreases |runs|
  {
    if |runs| == 0 then 0
    else
      var last := runs[|runs| - 1];
      if last.storyId != id then Open(runs[..|runs| - 1], id)
      else if last.reset then 0
      else Open(runs[..|runs| - 1], id) + 1
  }

  lemma OpenSnoc(runs: seq<AgentRun>, r: AgentRun, id: string)
    ensures Open(runs + [r], id) ==
      if r.storyId != id then Open(runs, id) else if r.reset then 0 else Open(runs, id) + 1
  {
    assert (runs + [r])[..|runs|] == runs;
  }

  /** Every run of a story is at most its `maxRetries`-th since the story's last passing run. */
  predicate WithinRetries(runs: seq<AgentRun>, maxRetries: int) {
    forall i :: 0 <= i < |runs| ==> Open(runs[..i], runs[i].storyId) < maxRetries
  }

  lemma WithinRetriesSnoc(runs: seq<AgentRun>, r: AgentRun, maxRetries: int)
    requires WithinRetries(runs, maxRetries) && Open(runs, r.storyId) < maxRetries
    ensures WithinRetries(runs + [r], maxRetries)
  {
    var all := runs + [r];
    forall i | 0 <= i < |all|
      ensures Open(all[..i], all[i].storyId) < maxRetries
    {
      if i < |runs| {
        assert all[..i] == runs[..i];
      } else {
        assert all[..i] == runs;
      }
    }
  }

  /** Each story's open runs are at most its attempt count. */
  ghost predicate Counted(s: State) {
    forall id :: Open(s.runs, id) <= Attempts(s.attempts, id)
  }

  /** An iteration that skips its story keeps the attempt counts ahead of the open runs. */
  lemma SkipKeepsRetries(cfg: Config, env: Env, s: State)
    requires s.iteration < cfg.maxIterations && s.prd.Readable?
    requires SelectNext(s.prd.doc.stories).Some?
    requires var doc := s.prd.doc; Attempts(s.attempts, doc.stories[SelectNext(doc.stories).value].id) + 1 > cfg.maxRetries
    requires Counted(s) && WithinRetries(s.runs, cfg.maxRetries)
    ensures Step(cfg, env, s).Next?
    ensures Counted(Step(cfg, env, s).next) && WithinRetries(Step(cfg, env, s).next.runs, cfg.maxRetries)
  {
    SkipStep(cfg, env, s);
    var s' := Step(cfg, env, s).next;
    forall other ensures Open(s'.runs, other) <= Attempts(s'.attempts, other) {
      assert Open(s.runs, other) <= Attempts(s.attempts, other);
    }
  }

  /** An iteration that runs the agent keeps every run within the retries, and the counts ahead. */
  lemma RunKeepsRetries(cfg: Config, env: Env, s: State)
    requires s.iteration < cfg.maxIterations && s.prd.Readable?
    requires SelectNext(s.prd.doc.stories).Some?
    requires var doc := s.prd.doc; Attempts(s.attempts, doc.stories[SelectNext(doc.stories).value].id) + 1 <= cfg.maxRetries
    requires Counted(s) && WithinRetries(s.runs, cfg.maxRetries)
    ensures Step(cfg, env, s).Next?
    ensures Counted(Step(cfg, env, s).next) && WithinRetries(Step(cfg, env, s).next.runs, cfg.maxRetries)
  {
    var id := s.prd.doc.stories[SelectNext(s.prd.doc.stories).value].id;
    RunStep(cfg, env, s);
    var s' := Step(cfg, env, s).next;
    var run := s'.runs[|s.runs|];
    assert s'.runs == s.runs + [run];
    assert Open(s.runs, id) <= Attempts(s.attempts, id);
    WithinRetriesSnoc(s.runs, run, cfg.maxRetries);
    forall other ensures Open(s'.runs, other) <= Attempts(s'.attempts, other) {
      OpenSnoc(s.runs, run, other);
      assert Open(s.runs, other) <= Attempts(s.attempts, other);
    }
  }

  /** One iteration keeps the attempt counts ahead of the open runs, and every run within the retries. */
  lemma StepKeepsRetries(cfg: Config, env: Env, s: State)
    requires s.iteration < cfg.maxIterations
    requires Counted(s) && WithinRetries(s.runs, cfg.maxRetries)
    ensures Step(cfg, env, s).Next? ==> Counted(Step(cfg, env, s).next) && WithinRetries(Step(cfg, env, s).next.runs, cfg.maxRetries)
    ensures Step(cfg, env, s).Done? ==> WithinRetries(Step(cfg, env, s).finished.runs, cfg.maxRetries)
  {
    if s.prd.Readable? && SelectNext(s.prd.doc.stories).Some? {
      var doc := s.prd.doc;
      var id := doc.stories[SelectNext(doc.stories).value].id;
      if Attempts(s.attempts, id) + 1 > cfg.maxRetries {
        SkipKeepsRetries(cfg, env, s);
      } else {
        RunKeepsRetries(cfg, env, s);
      }
    }
  }

  lemma {:induction false} DriveKeepsRetries(cfg: Config, env: Env, s: State)
    requires Counted(s) && WithinRetries(s.runs, cfg.maxRetries)
    ensures WithinRetries(Drive(cfg, env, s).runs, cfg.maxRetries)
    decreases cfg.maxIterations - s.iteration
  {
    if s.iteration < cfg.maxIterations {
      StepKeepsRetries(cfg, env, s);
      match Step(cfg, env, s)
      case Next(s') => DriveKeepsRetries(cfg, env, s');
      case Done(_) =>
    }
  }

  /**
   * Over a whole `runLoop`, the agent runs at most `maxRetries` times for a
   * story between two of its passing runs: each run of a story comes after
   * fewer than `maxRetries` non-passing runs of it since its last pass.
   */
  lemma AgentRunsAtMostMaxRetriesBetweenResets(cfg: Config, env: Env)
    ensures WithinRetries(Run(cfg, env).runs, cfg.maxRetries)
  {
    if Agent.IsAgentAvailable(cfg.agent, env.whichExit) && env.prd.Readable? {
      var s := Initial(cfg, env, env.prd.doc);
      forall id ensures Open(s.runs, id) <= Attempts(s.attempts, id) { }
      DriveKeepsRetries(cfg, env, s);
    }
  }

  // ---------------------------------------------------------------------
  // How a run ends
  // ---------------------------------------------------------------------

  /**
   * From any state: at most one agent run per remaining iteration; success
   * comes after the current iteration and within `maxIterations`, with every
   * story passing in the document read last; the only failures are a load
   * failure (with prd.json unreadable) and running out of iterations.
   */
  lemma {:induction false} DriveEnds(cfg: Config, env: Env, s: State)
    ensures var f := Drive(cfg, env, s);
      && |f.runs| <= |s.runs| + (if cfg.maxIterations > s.iteration then cfg.maxIterations - s.iteration else 0)
      && |s.log| < |f.log|
      && (f.result.Succeeded? ==>
            && s.iteration < f.result.iterations <= cfg.maxIterations
            && f.prd.Readable?
            && forall j :: 0 <= j < |f.prd.doc.stories| ==> f.prd.doc.stories[j].passes)
      && (f.result.Failed? ==>
            || (f.result.error == PrdLoadFailed && f.prd.Unreadable?)
            || f.result.error == MaxIterationsReached)
    decreases cfg.maxIterations - s.iteration
  {
    if s.iteration < cfg.maxIterations {
      match Step(cfg, env, s)
      case Next(s') => DriveEnds(cfg, env, s');
      case Done(_) =>
    }
  }

  /**
   * What one `runLoop` call can end with: "Agent not available" (nothing
   * else reported, no run), "PRD load failed", "Max iterations reached", or
   * success after at least one and at most `maxIterations` iterations with
   * every story passing; never more agent runs than iterations.
   */
  lemma RunEnds(cfg: Config, env: Env)
    ensures var f := Run(cfg, env);
      && |f.runs| <= (if cfg.maxIterations > 0 then cfg.maxIterations else 0)
      && (!Agent.IsAgentAvailable(cfg.agent, env.whichExit) ==>
            f == Finished(Failed(AgentNotAvailable), [ErrorCall(NotFoundMessage(cfg.agent))], [], env.prd))
      && (Agent.IsAgentAvailable(cfg.agent, env.whichExit) && env.prd.Unreadable? ==>
            f == Finished(Failed(PrdLoadFailed), [ErrorCall(LoadFailedMessage(env.prd.reason))], [], env.prd))
      && (f.result.Succeeded? ==>
            && 1 <= f.result.iterations <= cfg.maxIterations
            && f.prd.Readable?
            && forall j :: 0 <= j < |f.prd.doc.stories| ==> f.prd.doc.stories[j].passes)
      && (f.result.Failed? ==>
            f.result.error == AgentNotAvailable || f.result.error == PrdLoadFailed || f.result.error == MaxIterationsReached)
  {
    if Agent.IsAgentAvailable(cfg.agent, env.whichExit) && env.prd.Readable? {
      DriveEnds(cfg, env, Initial(cfg, env, env.prd.doc));
    }
  }

  /**
   * With the default options: at most 25 agent runs, at most 3 runs of a
   * story between two of its passing runs, success within 25 iterations, and
   * a run that outlasts its time limit is reported after 600 seconds.
   */
  lemma DefaultRun(env: Env)
    ensures var f := Run(Defaults, env);
      && |f.runs| <= 25
      && WithinRetries(f.runs, 3)
      && (f.result.Succeeded? ==> 1 <= f.result.iterations <= 25)
    ensures Agent.TimeoutMessage(Defaults.timeout) == "Agent timed out after 600s"
  {
    RunEnds(Defaults, env);
    AgentRunsAtMostMaxRetriesBetweenResets(Defaults, env);
  }

  /**
   * When every story already passes, `runLoop` succeeds on the first
   * iteration without running the agent, reporting only the start and the
   * completion; with no iteration allowed it reports the limit instead.
   */
  lemma NothingToDo(cfg: Config, env: Env)
    requires Agent.IsAgentAvailable(cfg.agent, env.whichExit) && env.prd.Readable?
    requires forall j :: 0 <= j < |env.prd.doc.stories| ==> env.prd.doc.stories[j].passes
    ensures cfg.maxIterations >= 1 ==>
      Run(cfg, env) == Finished(Succeeded(1), [StartCall(cfg.agent, cfg.maxIterations, env.prd.doc), CompleteCall(env.prd.doc)], [], env.prd)
    ensures cfg.maxIterations <= 0 ==>
      Run(cfg, env) == Finished(Failed(MaxIterationsReached), [StartCall(cfg.agent, cfg.maxIterations, env.prd.doc), MaxIterationsCall(cfg.maxIterations)], [], env.prd)
  {
    var s := Initial(cfg, env, env.prd.doc);
    if cfg.maxIterations >= 1 {
      assert Step(cfg, env, s).Done?;
    }
  }
}
