/**
 * The progress reporter between the iteration engine and the dashboard
 * (`Reporter` in src/lib/reporter.js): it keeps the pass and fail counters,
 * writes console lines, and forwards each event to the attached
 * `LoopServer`, if any.
 *
 * Console text other than `log` is not modelled; the clock is a parameter.
 */
module Reporting {

  import opened Wrappers
  import opened Prd
  import Agent
  import Server

  /** The prefix `log` puts before a message of the given level. */
  function LevelPrefix(level: string): (prefix: string)
    ensures level !in {"success", "error", "warn", "story", "agent"} ==> prefix == ""
  {
    if level == "success" then "✅ "
    else if level == "error" then "❌ "
    else if level == "warn" then "⚠️  "
    else if level == "story" then "📖 "
    else if level == "agent" then "🤖 "
    else ""
  }

  /** The output line `skip` adds on the dashboard. */
  function SkipText(story: Story, reason: string): string {
    "⏭️ Skipping story " + story.id + ": " + reason
  }

  /** The output line `error` adds on the dashboard. */
  function ErrorText(message: string): string {
    "❌ Error: " + message
  }

  class Reporter {
    var verbose: bool
    var quiet: bool
    /** The attached dashboard server; `null` when there is none. */
    var server: Server.LoopServer?
    var startTime: Option<int>
    var storiesCompleted: nat
    var storiesFailed: nat
    /** The lines `log` has written to the console, in order. */
    var logged: seq<string>

    /** An attached server keeps its own invariant. */
    ghost predicate Valid()
      reads this, server
    {
      server != null ==> server.Valid()
    }

    /** `new Reporter(options)`: both flags default to false and the server to none. */
    constructor (verbose: Option<bool>, quiet: Option<bool>, server: Server.LoopServer?)
      requires server != null ==> server.Valid()
      ensures Valid()
      ensures this.verbose == verbose.GetOr(false) && this.quiet == quiet.GetOr(false)
      ensures this.server == server && startTime == None
      ensures storiesCompleted == 0 && storiesFailed == 0 && logged == []
    {
      this.verbose := verbose.GetOr(false);
      this.quiet := quiet.GetOr(false);
      this.server := server;
      startTime := None;
      storiesCompleted, storiesFailed := 0, 0;
      logged := [];
    }

    /** `log(message, level)`: nothing when quiet, otherwise one line with the level's prefix. */
    method Log(message: string, level: string)
      modifies this`logged
      ensures quiet ==> logged == old(logged)
      ensures !quiet ==> logged == old(logged) + [LevelPrefix(level) + message]
    {
      if !quiet {
        logged := logged + [LevelPrefix(level) + message];
      }
    }

    /**
     * `start({agent, maxIterations, prd})`: the start time is taken, and an
     * attached server starts its snapshot when a document was given.
     */
    method Start(agent: string, maxIterations: int, prd: Option<Document>, now: int)
      requires Valid()
      modifies this`startTime, server
      ensures Valid()
      ensures startTime == Some(now)
      ensures server != null && prd.Some? ==>
        server.status == Server.Running && server.stories == Server.Projection(prd.value.stories)
        && server.output == [] && server.completedCount == CountPassing(prd.value.stories)
        && server.currentStory == None && server.startTime == Some(now) && server.added == []
        && server.sent == old(server.sent) + Server.Deliveries(server.clients, server.isOpen, Server.StoriesMsg(server.stories))
           + Server.Deliveries(server.clients, server.isOpen, Server.StatusMsg(Server.Running))
      ensures server != null && prd.None? ==> unchanged(server)
    {
      startTime := Some(now);
      if server != null && prd.Some? {
        server.LoopStart(prd.value, now);
      }
    }

    /** `storyStart(story, context)`: forwarded to an attached server. */
    method StoryStart(story: Story, iteration: int, attempt: int, remaining: int)
      requires Valid()
      modifies server
      ensures Valid()
      ensures server != null ==>
        server.currentStory == Some(story.id) && server.stories == Server.Started(old(server.stories), story.id)
        && server.added == old(server.added) + Server.StoryStartLines(story, iteration, attempt)
        && server.sent == old(server.sent)
           + Server.Deliveries(server.clients, server.isOpen,
               Server.StoryStartMsg(story.id, story.title, iteration, attempt, remaining))
           + Server.Announced(server.clients, server.isOpen, Server.StoryStartLines(story, iteration, attempt))
      ensures server != null ==> unchanged(server`port, server`listening, server`status, server`startTime, server`clients, server`isOpen, server`closing, server`listeners, server`called, server`completedCount)
    {
      if server != null {
        server.StoryStart(story, iteration, attempt, remaining);
      }
    }

    /** `output(text)`: an agent's output chunk, forwarded to an attached server. */
    method Output(text: string)
      requires Valid()
      modifies server
      ensures Valid()
      ensures server != null ==> server.added == old(server.added) + Server.AgentLines(text)
      ensures server != null ==> server.sent == old(server.sent) + Server.Announced(server.clients, server.isOpen, Server.AgentLines(text))
      ensures server != null ==> unchanged(server`port, server`listening, server`status, server`startTime, server`clients, server`isOpen, server`closing, server`listeners, server`called, server`stories, server`currentStory, server`completedCount)
    {
      if server != null {
        server.AgentOutput(text);
      }
    }

    /**
     * `storyPass(story, duration)`: one more story completed, none more
     * failed, and an attached server marks the story passed. `secondsText`
     * is the duration in seconds with one decimal.
     */
    method StoryPass(story: Story, duration: nat, secondsText: string)
      requires Valid()
      modifies this`storiesCompleted, server
      ensures Valid()
      ensures storiesCompleted == old(storiesCompleted) + 1 && storiesFailed == old(storiesFailed)
      ensures server != null ==>
        server.stories == Server.Ended(old(server.stories), story.id, true, duration)
        && server.completedCount == old(server.completedCount) + (if Server.HasEntry(old(server.stories), story.id) then 1 else 0)
        && server.currentStory == None
        && server.added == old(server.added) + [Server.StoryEndLine(story, true, secondsText)]
        && server.sent == old(server.sent)
           + Server.Deliveries(server.clients, server.isOpen,
               Server.OutputMsg(Server.StoryEndLine(story, true, secondsText).text, Server.StoryEndLine(story, true, secondsText).kind))
           + Server.Deliveries(server.clients, server.isOpen,
               Server.StoryEndMsg(story.id, true, duration, server.completedCount, |server.stories|))
      ensures server != null ==> unchanged(server`port, server`listening, server`status, server`startTime, server`clients, server`isOpen, server`closing, server`listeners, server`called)
    {
      storiesCompleted := storiesCompleted + 1;
      if server != null {
        server.StoryEnd(story, true, duration, secondsText);
      }
    }

    /**
     * `storyFail(story, result)`: one more story failed, none more
     * completed, and an attached server marks the story failed with the
     * run's duration.
     */
    method StoryFail(story: Story, result: Agent.ExecResult, secondsText: string)
      requires Valid()
      modifies this`storiesFailed, server
      ensures Valid()
      ensures storiesFailed == old(storiesFailed) + 1 && storiesCompleted == old(storiesCompleted)
      ensures server != null ==>
        server.stories == Server.Ended(old(server.stories), story.id, false, result.duration)
        && server.completedCount == old(server.completedCount) + 0
        && server.currentStory == None
        && server.added == old(server.added) + [Server.StoryEndLine(story, false, secondsText)]
        && server.sent == old(server.sent)
           + Server.Deliveries(server.clients, server.isOpen,
               Server.OutputMsg(Server.StoryEndLine(story, false, secondsText).text, Server.StoryEndLine(story, false, secondsText).kind))
           + Server.Deliveries(server.clients, server.isOpen,
               Server.StoryEndMsg(story.id, false, result.duration, server.completedCount, |server.stories|))
      ensures server != null ==> unchanged(server`port, server`listening, server`status, server`startTime, server`clients, server`isOpen, server`closing, server`listeners, server`called)
    {
      storiesFailed := storiesFailed + 1;
      if server != null {
        server.StoryEnd(story, false, result.duration, secondsText);
      }
    }

    /** `skip(story, reason)`: one warning line on an attached server. */
    method Skip(story: Story, reason: string)
      requires Valid()
      modifies server
      ensures Valid()
      ensures server != null ==>
        server.added == old(server.added) + [Server.OutputLine(SkipText(story, reason), Server.Warning)]
        && server.sent == old(server.sent) + Server.Deliveries(server.clients, server.isOpen, Server.OutputMsg(SkipText(story, reason), Server.Warning))
      ensures server != null ==> unchanged(server`port, server`listening, server`status, server`startTime, server`clients, server`isOpen, server`closing, server`listeners, server`called, server`stories, server`currentStory, server`completedCount)
    {
      if server != null {
        server.AddOutput(SkipText(story, reason), Server.Warning);
      }
    }

    /** `error(message)`: one error line on an attached server. */
    method Error(message: string)
      requires Valid()
      modifies server
      ensures Valid()
      ensures server != null ==>
        server.added == old(server.added) + [Server.OutputLine(ErrorText(message), Server.Error)]
        && server.sent == old(server.sent) + Server.Deliveries(server.clients, server.isOpen, Server.OutputMsg(ErrorText(message), Server.Error))
      ensures server != null ==> unchanged(server`port, server`listening, server`status, server`startTime, server`clients, server`isOpen, server`closing, server`listeners, server`called, server`stories, server`currentStory, server`completedCount)
    {
      if server != null {
        server.AddOutput(ErrorText(message), Server.Error);
      }
    }

    /**
     * `complete(prd)`: the minutes and seconds of the total time it reports
     * (from time 0 if `start` never ran, as `Date.now() - null` does), and an
     * attached server ends the loop with success.
     */
    method Complete(prd: Document, now: int) returns (minutes: int, seconds: int)
      requires Valid()
      modifies server
      ensures Valid()
      ensures (minutes, seconds) == Server.ElapsedParts(now - startTime.GetOr(0))
      ensures server != null ==> server.status == Server.Complete && server.currentStory == None
      ensures server != null ==>
        var elapsed := now - server.startTime.GetOr(0);
        && server.added == old(server.added) + Server.LoopCompleteLines(true, elapsed)
        && server.sent == old(server.sent)
           + Server.Announced(server.clients, server.isOpen, Server.LoopCompleteLines(true, elapsed))
           + Server.Deliveries(server.clients, server.isOpen,
               Server.LoopCompleteMsg(true, elapsed, server.completedCount, |server.stories|))
      ensures server != null ==> unchanged(server`port, server`listening, server`stories, server`startTime, server`completedCount, server`clients, server`isOpen, server`closing, server`listeners, server`called)
    {
      var parts := Server.ElapsedParts(now - startTime.GetOr(0));
      minutes, seconds := parts.0, parts.1;
      if server != null {
        server.LoopComplete(true, now);
      }
    }

    /**
     * `maxIterationsReached(max)`: an attached server ends the loop without
     * success, adding its four closing lines and broadcasting the end.
     */
    method MaxIterationsReached(max: int, now: int)
      requires Valid()
      modifies server
      ensures Valid()
      ensures server != null ==> server.status == Server.Stopped && server.currentStory == None
      ensures server != null ==>
        var elapsed := now - server.startTime.GetOr(0);
        && server.added == old(server.added) + Server.LoopCompleteLines(false, elapsed)
        && server.sent == old(server.sent)
           + Server.Announced(server.clients, server.isOpen, Server.LoopCompleteLines(false, elapsed))
           + Server.Deliveries(server.clients, server.isOpen,
               Server.LoopCompleteMsg(false, elapsed, server.completedCount, |server.stories|))
      ensures server != null ==> unchanged(server`port, server`listening, server`stories, server`startTime, server`completedCount, server`clients, server`isOpen, server`closing, server`listeners, server`called)
    {
      if server != null {
        server.LoopComplete(false, now);
      }
    }
  }
}
