/**
 * The two text helpers of `src/lib/loop.js`: the progress excerpt handed to
 * the agent (`loadProgress`) and the prompt for one story (`buildStoryPrompt`).
 */
module Prompt {

  import opened Wrappers
  import opened Text
  import opened Prd

  // ---------------------------------------------------------------------
  // loadProgress
  // ---------------------------------------------------------------------

  /** How many trailing lines of progress.txt the prompt carries. */
  const ProgressLines: nat := 50

  /**
   * `loadProgress(cwd)`, given what reading progress.txt yields (None when the
   * read fails): the last 50 newline-separated lines, joined back with "\n";
   * "" when the file cannot be read.
   */
  function LoadProgress(content: Option<string>): string {
    match content
    case None => ""
    case Some(c) => Join(Tail(Split(c, '\n'), ProgressLines), '\n')
  }

  /** A failed read yields the empty excerpt, which the prompt shows as "(No progress yet)". */
  lemma LoadProgressUnreadable()
    ensures LoadProgress(None) == ""
    ensures ProgressSection(LoadProgress(None)) == "(No progress yet)"
  {
  }

  /** The excerpt is a final part of the file's text. */
  lemma LoadProgressIsSuffix(c: string)
    ensures exists m :: 0 <= m <= |c| && c[m..] == LoadProgress(Some(c))
  {
    var lines := Split(c, '\n');
    JoinSplit(c, '\n');
    JoinSuffix(lines, |lines| - |Tail(lines, ProgressLines)|, '\n');
  }

  /** The excerpt holds exactly the last min(50, n) lines of a file of n lines. */
  lemma LoadProgressLastLines(c: string)
    ensures var lines := Split(c, '\n');
      && Split(LoadProgress(Some(c)), '\n') == lines[|lines| - |Tail(lines, ProgressLines)|..]
      && |Split(LoadProgress(Some(c)), '\n')| == if |lines| <= ProgressLines then |lines| else ProgressLines
  {
    var lines := Split(c, '\n');
    var kept := Tail(lines, ProgressLines);
    assert kept == lines[|lines| - |kept|..];
    SplitJoin(kept, '\n');
  }

  /** A file of at most 50 lines is handed over whole. */
  lemma LoadProgressShortFile(c: string)
    requires |Split(c, '\n')| <= ProgressLines
    ensures LoadProgress(Some(c)) == c
  {
    JoinSplit(c, '\n');
  }

  // ---------------------------------------------------------------------
  // buildStoryPrompt
  // ---------------------------------------------------------------------

  /** Address the agent is told to screenshot when the story names none. */
  const DefaultVerifyUrl: string := "http://localhost:5173"

  /** `story.verifyUrl || "http://localhost:5173"`: a missing or empty URL falls back to the default. */
  function VerifyTarget(story: Story): (url: string)
    ensures url != ""
    ensures url == DefaultVerifyUrl <==> story.verifyUrl.None? || story.verifyUrl.value in {"", DefaultVerifyUrl}
  {
    match story.verifyUrl
    case Some(u) => if u == "" then DefaultVerifyUrl else u
    case None => DefaultVerifyUrl
  }

  /** `${i + 1}. ${c}` for the criterion at index i. */
  function NumberedCriterion(i: nat, c: string): string {
    NatToString(i + 1) + ". " + c
  }

  function NumberedCriteria(acceptance: seq<string>): (lines: seq<string>)
    ensures |lines| == |acceptance|
  {
    seq(|acceptance|, i requires 0 <= i < |acceptance| => NumberedCriterion(i, acceptance[i]))
  }

  /** `story.acceptance.map((c, i) => `${i + 1}. ${c}`).join("\n")`. */
  function CriteriaBlock(acceptance: seq<string>): string {
    Join(NumberedCriteria(acceptance), '\n')
  }

  /**
   * When no criterion spans several lines, the criteria block reads back as
   * one line per criterion, in order, the i-th starting with the number i + 1.
   */
  lemma CriteriaNumberedInOrder(acceptance: seq<string>)
    requires |acceptance| >= 1
    requires forall i :: 0 <= i < |acceptance| ==> '\n' !in acceptance[i]
    ensures var lines := Split(CriteriaBlock(acceptance), '\n');
      && |lines| == |acceptance|
      && forall i :: 0 <= i < |lines| ==>
           lines[i] == NatToString(i + 1) + ". " + acceptance[i]
           && ParseNat(NatToString(i + 1)) == Some(i + 1)
  {
    var lines := NumberedCriteria(acceptance);
    forall i | 0 <= i < |lines|
      ensures '\n' !in lines[i]
      ensures ParseNat(NatToString(i + 1)) == Some(i + 1)
    {
      var d := NatToString(i + 1);
      assert lines[i] == d + ". " + acceptance[i];
      assert forall j :: 0 <= j < |d| ==> d[j] != '\n' by {
        forall j | 0 <= j < |d| ensures d[j] != '\n' { assert IsDigit(d[j]); }
      }
      ParseNatToString(i + 1);
    }
    SplitJoin(lines, '\n');
  }

  /**
   * The fixed text of the prompt between the places where story data is
   * filled in. Only the longer runs are named here; `LoopShipPrompt` holds the
   * text `buildStoryPrompt` uses, and the properties below hold whatever the
   * text is.
   */
  datatype Template = Template(
    /** From the title line to the "**Project:** " label. */
    header: string,
    /** The browser section up to the address to navigate to. */
    browserLead: string,
    /** From the address to the screenshot file name's story id. */
    browserShot: string,
    /** From the story id to the end of the browser section. */
    browserClose: string,
    /** The retry section after its heading. */
    retryAdvice: string,
    /** From the "## Instructions" heading to the optional browser check. */
    instructions: string,
    /** The browser check line of the instructions. */
    browserCheck: string,
    /** From the "If successful" step to the commit message's title. */
    commitStep: string,
    /** From the end of the commit message to the story id to mark. */
    markStep: string,
    /** From the `passes: true` note to the progress excerpt. */
    filesSection: string,
    /** From the progress excerpt to the closing story id. */
    closing: string)

  const LoopShipPrompt: Template := Template(
    "# LoopShip - Story Implementation\n\n"
      + "You are implementing a single story from a PRD. Complete this story, then stop.\n\n"
      + "## Project Context\n\n**Project:** ",
    "\n## Browser Verification Required\n\nThis story requires visual verification. After implementing:\n\n"
      + "1. **Start the dev server** (if not already running):\n   ```bash\n   npm run dev &\n   # Wait for it to be ready\n   sleep 3\n   ```\n\n"
      + "2. **Use the browser skill to verify:**\n   ```bash\n   npx tsx ~/.claude/skills/browser/cli.ts navigate ",
    "\n   npx tsx ~/.claude/skills/browser/cli.ts screenshot story-",
    ".png\n   ```\n\n"
      + "3. **Check the screenshot** and verify the UI matches these acceptance criteria\n"
      + "4. **Only mark as done** after visual confirmation passes\n\n"
      + "Do NOT mark requiresBrowser stories as passing without actually taking and reviewing a screenshot.\n",
    "\n\nPrevious attempt failed. Check progress.txt for error details.\n",
    "\n\n## Instructions\n\n"
      + "1. **Implement the story** - Write the necessary code\n"
      + "2. **Verify it works:**\n"
      + "   - Run `npm test` if tests exist\n"
      + "   - Run `npm run typecheck` if TypeScript\n   ",
    "- Take browser screenshot and verify UI",
    "\n3. **If successful:**\n   - Commit with message: `feat: ",
    "`\n   - Update prd.json: set story ",
    " `passes: true`\n"
      + "   - Add a brief note to progress.txt about what you learned\n"
      + "4. **If it fails:**\n"
      + "   - Add error details to progress.txt\n"
      + "   - Do NOT set passes: true\n\n"
      + "## Files to Update\n\n"
      + "- **prd.json** - Mark story as passing when done\n"
      + "- **progress.txt** - Log what you did and any learnings\n\n"
      + "## Recent Progress\n\n",
    "\n\n---\n\nBegin implementing story ")

  /** The browser-verification section: present only for stories that require a browser. */
  function BrowserSection(t: Template, story: Story): string {
    if story.requiresBrowser then
      t.browserLead + VerifyTarget(story) + t.browserShot + story.id + t.browserClose
    else ""
  }

  /** The retry section: empty on a first attempt, otherwise a heading naming the attempt number. */
  function RetrySection(t: Template, attempt: int): (r: string)
    ensures r == "" <==> attempt <= 1
  {
    if attempt > 1 then RetryHeading(attempt) + t.retryAdvice else ""
  }

  function RetryHeading(attempt: int): string {
    "\n## Retry Attempt " + IntToString(attempt)
  }

  /** A retry section opens with the heading that names the attempt. */
  lemma RetrySectionNamesAttempt(t: Template, attempt: int)
    requires attempt > 1
    ensures StartsWith(RetrySection(t, attempt), RetryHeading(attempt))
  {
    var h := RetryHeading(attempt);
    assert RetrySection(t, attempt)[..|h|] == h;
  }

  /** `progressLog || "(No progress yet)"`. */
  function ProgressSection(progressLog: string): (r: string)
    ensures progressLog != "" ==> r == progressLog
  {
    if progressLog == "" then "(No progress yet)" else progressLog
  }

  /** Everything before the criteria: the project context and the story. */
  function CriteriaIntro(t: Template, doc: Document, story: Story): string {
    t.header + doc.project
    + "\n**Branch:** " + doc.branchName
    + "\n**Description:** " + doc.description
    + "\n\n## Current Story\n\n**ID:** " + story.id
    + "\n**Title:** " + story.title
    + "\n**Description:** " + story.description
    + "\n**Priority:** " + IntToString(story.priority)
    + "\n\n### Acceptance Criteria\n"
  }

  /** The lines between the criteria and the retry section, holding the browser section. */
  function BrowserPart(t: Template, story: Story): string {
    "\n\n" + BrowserSection(t, story) + "\n"
  }

  /** Everything after the retry section: instructions, files to update and the progress excerpt. */
  function PromptTail(t: Template, story: Story, progressLog: string): string {
    t.instructions + (if story.requiresBrowser then t.browserCheck else "")
    + t.commitStep + story.title
    + t.markStep + story.id
    + t.filesSection + ProgressSection(progressLog)
    + t.closing + story.id + ": \"" + story.title + "\"\n"
  }

  /**
   * The prompt in three parts: everything before the retry section, the
   * retry section, everything after it.
   */
  function PromptParts(t: Template, doc: Document, story: Story, progressLog: string, attempt: int): (parts: seq<string>)
    ensures |parts| == 3
  {
    [CriteriaIntro(t, doc, story) + CriteriaBlock(story.acceptance) + BrowserPart(t, story),
     RetrySection(t, attempt),
     PromptTail(t, story, progressLog)]
  }

  function Render(t: Template, doc: Document, story: Story, progressLog: string, attempt: int): string {
    var parts := PromptParts(t, doc, story, progressLog, attempt);
    parts[0] + parts[1] + parts[2]
  }

  /** `buildStoryPrompt(prd, story, {progressLog, attempt})`. */
  function BuildStoryPrompt(doc: Document, story: Story, progressLog: string, attempt: int): string {
    Render(LoopShipPrompt, doc, story, progressLog, attempt)
  }

  /**
   * The attempt number changes the prompt only through the retry section:
   * the parts before and after it are those of the first attempt, and the
   * retry section is empty exactly when the attempt number is at most 1.
   */
  lemma OnlyRetrySectionDependsOnAttempt(t: Template, doc: Document, story: Story, progressLog: string, attempt: int)
    ensures var parts, first := PromptParts(t, doc, story, progressLog, attempt), PromptParts(t, doc, story, progressLog, 1);
      && parts == first[1 := RetrySection(t, attempt)]
      && first[1] == ""
      && (parts[1] == "" <==> attempt <= 1)
      && (attempt <= 1 ==> Render(t, doc, story, progressLog, attempt) == Render(t, doc, story, progressLog, 1))
  {
    if attempt <= 1 {
      assert RetrySection(t, attempt) == RetrySection(t, 1);
    }
  }

  lemma Regroup(a: string, b: string, c: string, d: string, e: string)
    ensures (a + b + c) + d + e == a + b + (c + d + e)
  {
  }

  /** The prompt always carries the numbered criteria block, after the story's own fields. */
  lemma PromptCarriesCriteria(t: Template, doc: Document, story: Story, progressLog: string, attempt: int)
    ensures Contains(Render(t, doc, story, progressLog, attempt), CriteriaBlock(story.acceptance))
  {
    var intro, criteria := CriteriaIntro(t, doc, story), CriteriaBlock(story.acceptance);
    var browser, retry, tail := BrowserPart(t, story), RetrySection(t, attempt), PromptTail(t, story, progressLog);
    Regroup(intro, criteria, browser, retry, tail);
    ContainsInfix(intro, criteria, browser + retry + tail);
  }

  /** For the repository's own prompt text, the two properties above. */
  lemma BuildStoryPromptRetryAndCriteria(doc: Document, story: Story, progressLog: string, attempt: int)
    ensures attempt <= 1 <==> PromptParts(LoopShipPrompt, doc, story, progressLog, attempt)[1] == ""
    ensures attempt <= 1 ==> BuildStoryPrompt(doc, story, progressLog, attempt) == BuildStoryPrompt(doc, story, progressLog, 1)
    ensures Contains(BuildStoryPrompt(doc, story, progressLog, attempt), CriteriaBlock(story.acceptance))
  {
    OnlyRetrySectionDependsOnAttempt(LoopShipPrompt, doc, story, progressLog, attempt);
    PromptCarriesCriteria(LoopShipPrompt, doc, story, progressLog, attempt);
  }
}
