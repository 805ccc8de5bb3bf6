/**
 * The agent executor of `src/lib/agent.js`: the table of known agents, the
 * availability probe, and one run of an agent process.
 *
 * A run is modelled as the sequence of events the process and its timer
 * deliver: output chunks on stdout or stderr, `close` with an exit code,
 * `error`, and the timer firing. The first `close`, `error` or timer event
 * settles the outcome; later events only reach the output callback. When the
 * sequence holds no settling event at all, the timer is the one that fires,
 * after the last event.
 */
module Agent {

  import opened Wrappers
  import opened Text

  datatype AgentConfig = AgentConfig(name: string, command: string, args: seq<string>)

  /** `AGENTS`, in declaration order (the order `Object.keys` lists them in). */
  const Agents: seq<(string, AgentConfig)> := [
    ("claude", AgentConfig("Claude Code", "claude", ["--dangerously-skip-permissions", "--print"])),
    ("codex", AgentConfig("Codex CLI", "codex", ["--quiet"]))
  ]

  function LookupIn(table: seq<(string, AgentConfig)>, name: string): (r: Option<AgentConfig>)
    ensures r.Some? <==> exists i :: 0 <= i < |table| && table[i].0 == name
    ensures r.Some? ==> exists i :: 0 <= i < |table| && table[i] == (name, r.value)
    decreases |table|
  {
    if |table| == 0 then None
    else if table[0].0 == name then Some(table[0].1)
    else
      var r := LookupIn(table[1..], name);
      assert forall i :: 0 < i < |table| ==> table[i] == table[1..][i - 1];
      r
  }

  /** `AGENTS[agent]`. */
  function Lookup(name: string): (r: Option<AgentConfig>)
    ensures r.Some? <==> name == "claude" || name == "codex"
    ensures r.Some? ==> r.value.command == name
  {
    LookupIn(Agents, name)
  }

  /** `Object.keys(AGENTS).join(", ")`. */
  function KeyList(table: seq<(string, AgentConfig)>): string
    decreases |table|
  {
    if |table| == 0 then ""
    else if |table| == 1 then table[0].0
    else table[0].0 + ", " + KeyList(table[1..])
  }

  function UnknownAgentMessage(name: string): string {
    "Unknown agent: " + name + ". Available: " + KeyList(Agents)
  }

  /**
   * `isAgentAvailable(agent)`: false for a name outside the table; otherwise
   * whether `which <command>` exited with code 0 (`whichExit` is None when
   * `which` itself could not be spawned).
   */
  function IsAgentAvailable(name: string, whichExit: Option<int>): (r: bool)
    ensures Lookup(name).None? ==> !r
    ensures r <==> (name == "claude" || name == "codex") && whichExit == Some(0)
  {
    match Lookup(name)
    case None => false
    case Some(_) => whichExit == Some(0)
  }

  // ---------------------------------------------------------------------
  // One run
  // ---------------------------------------------------------------------

  datatype Channel = Stdout | Stderr

  datatype Event =
    | Data(channel: Channel, text: string)
    /** `close` with the exit code (None: killed by a signal) and the milliseconds since the start. */
    | Close(code: Option<int>, elapsed: nat)
    | ProcessError(message: string)
    | TimerFired

  predicate Settles(e: Event) {
    !e.Data?
  }

  /** One call of the `onOutput` callback: the text and its channel tag. */
  datatype Chunk = Chunk(text: string, channel: Channel)

  datatype ExecResult = ExecResult(success: bool, output: string, duration: nat, exitCode: Option<int>)

  /** The promise `runAgent` returns: resolved with a result, or rejected with an error message. */
  datatype Outcome = Resolved(result: ExecResult) | Rejected(message: string)

  datatype PipeOp = Write(text: string) | EndInput

  /** What the caller of `runAgent` sees of a run. */
  datatype Observation = Observation(
    /** Callback calls made before the outcome settled. */
    early: seq<Chunk>,
    /** Callback calls made after it settled (the listeners stay attached). */
    late: seq<Chunk>,
    /** Whether SIGTERM was sent. */
    killed: bool,
    outcome: Outcome)

  datatype Execution = Execution(
    /** The agent that was spawned; None when nothing was. */
    spawned: Option<AgentConfig>,
    /** What was done to the process's stdin, in order. */
    stdin: seq<PipeOp>,
    seen: Observation)

  /** `${ms / 1000}`: whole seconds, then up to three decimals without trailing zeros. */
  function SecondsText(ms: nat): (s: string)
    ensures ms % 1000 == 0 ==> s == NatToString(ms / 1000)
  {
    var f := ms % 1000;
    if f == 0 then NatToString(ms / 1000) else NatToString(ms / 1000) + "." + Decimals(f)
  }

  /**
   * The decimals of a fraction of a second given in milliseconds: one to
   * three digits, the last never zero (their value is `DecimalsValue`).
   */
  function Decimals(f: nat): (d: string)
    requires 0 < f < 1000
    ensures 1 <= |d| <= 3 && AllDigits(d)
    ensures d[|d| - 1] != '0'
  {
    var d1, d2, d3 := f / 100, f / 10 % 10, f % 10;
    if d3 != 0 then [DigitChar(d1), DigitChar(d2), DigitChar(d3)]
    else if d2 != 0 then [DigitChar(d1), DigitChar(d2)]
    else
      assert d1 != 0;
      [DigitChar(d1)]
  }

  /** Decimals padded with zeros to three places: the milliseconds they stand for. */
  function Milliseconds(decimals: string): (padded: string)
    requires |decimals| <= 3 && AllDigits(decimals)
    ensures |padded| == 3 && AllDigits(padded)
    decreases 3 - |decimals|
  {
    if |decimals| == 3 then decimals else Milliseconds(decimals + "0")
  }

  /** Three digits are worth a hundred times the first, ten times the second, plus the third. */
  lemma ThreeDigitsValue(a: nat, b: nat, c: nat)
    requires a < 10 && b < 10 && c < 10
    ensures DigitsValue([DigitChar(a), DigitChar(b), DigitChar(c)]) == a * 100 + b * 10 + c
  {
    var one := [DigitChar(a)];
    DigitsValueSnoc([], DigitChar(a));
    assert [] + one == one;
    DigitsValueSnoc(one, DigitChar(b));
    DigitsValueSnoc(one + [DigitChar(b)], DigitChar(c));
    assert one + [DigitChar(b)] + [DigitChar(c)] == [DigitChar(a), DigitChar(b), DigitChar(c)];
  }

  /** The decimals, padded back to three places, are worth the fraction they were made from. */
  lemma DecimalsValue(f: nat)
    requires 0 < f < 1000
    ensures DigitsValue(Milliseconds(Decimals(f))) == f
  {
    var d1, d2, d3 := f / 100, f / 10 % 10, f % 10;
    FractionDigits(f);
    var three := [DigitChar(d1), DigitChar(d2), DigitChar(d3)];
    ThreeDigitsValue(d1, d2, d3);
    if d3 != 0 {
      assert Milliseconds(Decimals(f)) == three;
    } else if d2 != 0 {
      assert [DigitChar(d1), DigitChar(d2)] + "0" == three;
      assert Milliseconds(Decimals(f)) == three;
    } else {
      var one := [DigitChar(d1)];
      assert Milliseconds(one) == Milliseconds(one + "0") == Milliseconds(one + "0" + "0");
      assert one + "0" + "0" == three;
    }
  }

  /**
   * Reads a seconds text back into milliseconds: whole seconds, optionally
   * followed by "." and one to three decimals; None for anything else.
   */
  function ReadSeconds(s: string): Option<nat> {
    var parts := Split(s, '.');
    if |parts| == 1 then
      match ParseNat(parts[0])
      case Some(w) => Some(w * 1000)
      case None => None
    else if |parts| == 2 && 1 <= |parts[1]| <= 3 && AllDigits(parts[1]) then
      match ParseNat(parts[0])
      case Some(w) => Some(w * 1000 + DigitsValue(Milliseconds(parts[1])))
      case None => None
    else None
  }

  /** The three decimal digits of a fraction below one second. */
  lemma FractionDigits(f: nat)
    requires f < 1000
    ensures f / 100 < 10 && f / 10 % 10 < 10
    ensures f == f / 100 * 100 + f / 10 % 10 * 10 + f % 10
  {
  }

  /** Decimal digits hold no decimal point. */
  lemma NoPoint(d: string)
    requires AllDigits(d)
    ensures '.' !in d
  {
    forall j | 0 <= j < |d| ensures d[j] != '.' {
      assert IsDigit(d[j]);
    }
  }

  /** Whole seconds have no decimal point and read back as that many thousands of milliseconds. */
  lemma ReadWholeSeconds(w: nat)
    ensures '.' !in NatToString(w)
    ensures ReadSeconds(NatToString(w)) == Some(w * 1000)
  {
    NoPoint(NatToString(w));
    SplitNoSep(NatToString(w), '.');
    ParseNatToString(w);
  }

  /** A text that splits at its decimal point into whole seconds and one to three decimals. */
  lemma ReadPointedSeconds(s: string, whole: string, frac: string, w: nat)
    requires Split(s, '.') == [whole, frac] && ParseNat(whole) == Some(w)
    requires 1 <= |frac| <= 3 && AllDigits(frac)
    ensures ReadSeconds(s) == Some(w * 1000 + DigitsValue(Milliseconds(frac)))
  {
  }

  /** Whole seconds with their decimals read back as the milliseconds. */
  lemma ReadSecondsWithDecimals(w: nat, f: nat)
    requires 0 < f < 1000
    ensures ReadSeconds(NatToString(w) + "." + Decimals(f)) == Some(w * 1000 + f)
  {
    var whole, frac := NatToString(w), Decimals(f);
    var s := whole + "." + frac;
    NoPoint(whole);
    NoPoint(frac);
    assert s == whole + ['.'] + frac;
    SplitAtSep(whole, frac, '.');
    SplitNoSep(frac, '.');
    ParseNatToString(w);
    ReadPointedSeconds(s, whole, frac, w);
    DecimalsValue(f);
  }

  /**
   * Whole seconds with their decimals keep the whole seconds in front, have
   * a decimal point and end in a non-zero digit.
   */
  lemma PointedShape(w: nat, f: nat)
    requires 0 < f < 1000
    ensures var s := NatToString(w) + "." + Decimals(f);
      && s[..|NatToString(w)|] == NatToString(w)
      && '.' in s
      && s[|s| - 1] != '0'
  {
    var whole, frac := NatToString(w), Decimals(f);
    var s := whole + "." + frac;
    assert s[..|whole|] == whole;
    assert s[|whole|] == '.';
    assert s[|s| - 1] == frac[|frac| - 1];
  }

  /** `SecondsTextReadsBack` for whole seconds. */
  lemma WholeSecondsText(ms: nat)
    requires ms % 1000 == 0
    ensures var s := SecondsText(ms);
      && ReadSeconds(s) == Some(ms)
      && s[..|NatToString(ms / 1000)|] == NatToString(ms / 1000)
      && '.' !in s
  {
    assert ms / 1000 * 1000 == ms;
    ReadWholeSeconds(ms / 1000);
  }

  /** `SecondsTextReadsBack` for milliseconds that are not whole seconds. */
  lemma FractionalSecondsText(ms: nat)
    requires ms % 1000 != 0
    ensures var s := SecondsText(ms);
      && ReadSeconds(s) == Some(ms)
      && s[..|NatToString(ms / 1000)|] == NatToString(ms / 1000)
      && '.' in s
      && s[|s| - 1] != '0'
  {
    var w, f := ms / 1000, ms % 1000;
    assert w * 1000 + f == ms;
    assert SecondsText(ms) == NatToString(w) + "." + Decimals(f);
    ReadSecondsWithDecimals(w, f);
    PointedShape(w, f);
  }

  /**
   * The seconds text starts with the whole seconds, has a decimal point
   * exactly when the milliseconds are not whole seconds, then never ends in
   * a zero, and reads back as the milliseconds it was made from.
   */
  lemma SecondsTextReadsBack(ms: nat)
    ensures var s := SecondsText(ms);
      && ReadSeconds(s) == Some(ms)
      && s[..|NatToString(ms / 1000)|] == NatToString(ms / 1000)
      && ('.' in s <==> ms % 1000 != 0)
      && (ms % 1000 != 0 ==> s[|s| - 1] != '0')
  {
    if ms % 1000 == 0 {
      WholeSecondsText(ms);
    } else {
      FractionalSecondsText(ms);
    }
  }

  function TimeoutMessage(timeout: nat): string {
    "Agent timed out after " + SecondsText(timeout) + "s"
  }

  /** Index of the first settling event, or the length when there is none. */
  function FirstSettling(events: seq<Event>): (t: nat)
    ensures t <= |events|
    ensures forall i :: 0 <= i < t ==> events[i].Data?
    ensures t < |events| ==> Settles(events[t])
    decreases |events|
  {
    if |events| == 0 then 0
    else if Settles(events[0]) then 0
    else 1 + FirstSettling(events[1..])
  }

  /** The callback calls the data events make, in order. */
  function ChunksOf(events: seq<Event>): (cs: seq<Chunk>)
    ensures |cs| <= |events|
    decreases |events|
  {
    if |events| == 0 then []
    else if events[0].Data? then [Chunk(events[0].text, events[0].channel)] + ChunksOf(events[1..])
    else ChunksOf(events[1..])
  }

  /** The texts of a run of chunks, concatenated. */
  function Concat(cs: seq<Chunk>): string
    decreases |cs|
  {
    if |cs| == 0 then "" else cs[0].text + Concat(cs[1..])
  }

  /**
   * How a settling event settles the promise, given the output gathered so
   * far: `close` resolves (success iff the exit code is 0), `error` rejects
   * with its message, the timer kills the process and rejects.
   */
  function SettleWith(e: Event, output: string, timeout: nat): Outcome
    requires Settles(e)
  {
    match e
    case Close(code, elapsed) => Resolved(ExecResult(code == Some(0), output, elapsed, code))
    case ProcessError(message) => Rejected(message)
    case TimerFired => Rejected(TimeoutMessage(timeout))
  }

  /**
   * What one `runAgent` call does, stated from the position of the first
   * settling event rather than step by step.
   */
  function Execute(name: string, prompt: string, timeout: nat, events: seq<Event>): Execution {
    match Lookup(name)
    case None => Execution(None, [], Observe(name, timeout, events))
    case Some(config) => Execution(Some(config), [Write(prompt), EndInput], Observe(name, timeout, events))
  }

  /** What the caller sees of a `runAgent` call; the prompt plays no part in it. */
  function Observe(name: string, timeout: nat, events: seq<Event>): Observation {
    if Lookup(name).None? then Observation([], [], false, Rejected(UnknownAgentMessage(name)))
    else Observed(timeout, events)
  }

  /** What the caller sees of the run of an agent found in the table. */
  function Observed(timeout: nat, events: seq<Event>): Observation {
    var t := FirstSettling(events);
    var early := ChunksOf(events[..t]);
    if t == |events| then
      Observation(early, [], true, Rejected(TimeoutMessage(timeout)))
    else
      Observation(early, ChunksOf(events[t + 1..]), events[t].TimerFired?, SettleWith(events[t], Concat(early), timeout))
  }

  lemma ChunksOfAppend(a: seq<Event>, b: seq<Event>)
    ensures ChunksOf(a + b) == ChunksOf(a) + ChunksOf(b)
    decreases |a|
  {
    if |a| == 0 {
      assert a + b == b;
    } else {
      assert (a + b)[0] == a[0];
      assert (a + b)[1..] == a[1..] + b;
      ChunksOfAppend(a[1..], b);
      if a[0].Data? {
        var c := [Chunk(a[0].text, a[0].channel)];
        assert c + (ChunksOf(a[1..]) + ChunksOf(b)) == c + ChunksOf(a[1..]) + ChunksOf(b);
      }
    }
  }

  lemma ConcatAppend(a: seq<Chunk>, b: seq<Chunk>)
    ensures Concat(a + b) == Concat(a) + Concat(b)
    decreases |a|
  {
    if |a| == 0 {
      assert a + b == b;
    } else {
      assert (a + b)[0] == a[0];
      assert (a + b)[1..] == a[1..] + b;
      ConcatAppend(a[1..], b);
    }
  }

  /** Extending a window of the trace by one event adds that event's chunk, if any. */
  lemma ChunksSnoc(events: seq<Event>, lo: nat, hi: nat)
    requires lo <= hi < |events|
    ensures ChunksOf(events[lo..hi + 1]) == ChunksOf(events[lo..hi])
      + (if events[hi].Data? then [Chunk(events[hi].text, events[hi].channel)] else [])
  {
    assert events[lo..hi + 1] == events[lo..hi] + [events[hi]];
    ChunksOfAppend(events[lo..hi], [events[hi]]);
    assert [events[hi]][1..] == [];
  }

  /** The data events of a trace are those before and after one settling event. */
  lemma ChunksAround(events: seq<Event>, t: nat)
    requires t < |events| && Settles(events[t])
    ensures ChunksOf(events) == ChunksOf(events[..t]) + ChunksOf(events[t + 1..])
  {
    var before, after := events[..t], events[t + 1..];
    var rest := [events[t]] + after;
    assert events == before + rest;
    ChunksOfAppend(before, rest);
    assert rest[1..] == after;
    assert ChunksOf(rest) == ChunksOf(after);
  }

  lemma FirstSettlingPrefix(events: seq<Event>, i: nat)
    requires i <= |events|
    requires forall j :: 0 <= j < i ==> events[j].Data?
    ensures FirstSettling(events) >= i
    decreases i
  {
    if i > 0 {
      FirstSettlingPrefix(events[1..], i - 1);
    }
  }

  /** An unknown agent name rejects with "Unknown agent" before anything is spawned, written or called back. */
  lemma UnknownAgentSpawnsNothing(name: string, prompt: string, timeout: nat, events: seq<Event>)
    requires Lookup(name).None?
    ensures var x := Execute(name, prompt, timeout, events);
      x.spawned.None? && x.stdin == [] && x.seen.early == [] && x.seen.late == [] && !x.seen.killed
      && x.seen.outcome == Rejected(UnknownAgentMessage(name))
  {
  }

  /** A known agent is spawned, then the prompt is written to its stdin and stdin is closed. */
  lemma PromptWrittenThenClosed(name: string, prompt: string, timeout: nat, events: seq<Event>)
    requires Lookup(name).Some?
    ensures var x := Execute(name, prompt, timeout, events);
      x.seen == Observed(timeout, events)
      && x.spawned == Lookup(name) && x.stdin == [Write(prompt), EndInput]
  {
  }

  /** Every data chunk reaches the callback exactly once, with its channel tag, in arrival order. */
  lemma {:induction false} EveryChunkCalledBackOnce(timeout: nat, events: seq<Event>)
    ensures var x := Observed(timeout, events);
      x.early + x.late == ChunksOf(events)
  {
    var t := FirstSettling(events);
    if t < |events| {
      ChunksAround(events, t);
    } else {
      assert events[..t] == events;
    }
  }

  /**
   * A `close` that comes first decides the result: success iff the exit code
   * is 0, that exit code, and as output the chunks gathered before it,
   * concatenated in arrival order.
   */
  lemma CloseDecides(timeout: nat, events: seq<Event>)
    requires FirstSettling(events) < |events| && events[FirstSettling(events)].Close?
    ensures var x := Observed(timeout, events);
      var c := events[FirstSettling(events)];
      && x.early == ChunksOf(events[..FirstSettling(events)])
      && x.outcome == Resolved(ExecResult(c.code == Some(0), Concat(x.early), c.elapsed, c.code))
      && !x.killed
  {
  }

  /**
   * SIGTERM is sent exactly when the timer is what settles the run, and then
   * the call rejects with the timeout message; a `close` or `error` first
   * clears the timer, so it never kills the process afterwards.
   */
  lemma KilledIffTimerFirst(timeout: nat, events: seq<Event>)
    ensures var x := Observed(timeout, events);
      var t := FirstSettling(events);
      && (x.killed <==> t == |events| || events[t].TimerFired?)
      && (x.killed ==> x.outcome == Rejected(TimeoutMessage(timeout)))
  {
  }

  lemma {:induction false} FirstSettlingAppend(events: seq<Event>, more: seq<Event>)
    requires FirstSettling(events) < |events|
    ensures FirstSettling(events + more) == FirstSettling(events)
    decreases |events|
  {
    assert (events + more)[0] == events[0];
    if !Settles(events[0]) {
      assert (events + more)[1..] == events[1..] + more;
      FirstSettlingAppend(events[1..], more);
    }
  }

  /**
   * The outcome settles once: whatever events follow the first settling one
   * (late data, a `close` after `error`, a timer that was already cleared),
   * the outcome, the kill decision and the callback calls made before
   * settling stay the same.
   */
  lemma {:induction false} SettlesOnce(name: string, timeout: nat, events: seq<Event>, more: seq<Event>)
    requires FirstSettling(events) < |events|
    ensures var x, y := Observe(name, timeout, events), Observe(name, timeout, events + more);
      y.outcome == x.outcome && y.killed == x.killed && y.early == x.early
  {
    var t := FirstSettling(events);
    FirstSettlingAppend(events, more);
    assert (events + more)[..t] == events[..t];
    assert (events + more)[t] == events[t];
  }

  /**
   * The listeners `runAgent` attaches, applied to the events one at a time.
   * While the promise is pending, `data` accumulates the output and calls
   * `onOutput`, and the first `close`, `error` or timer event clears (or is)
   * the timer and settles the promise. Once it has settled, `data` still
   * calls `onOutput`, and later `close` and `error` events only try to
   * resolve or reject a settled promise, which has no effect. Returns the
   * callback calls before and after settling, the settled outcome (None
   * when nothing settled it) and whether the timer killed the process.
   */
  method Listen(events: seq<Event>, timeout: nat)
    returns (early: seq<Chunk>, late: seq<Chunk>, settled: Option<Outcome>, killed: bool)
    ensures early == ChunksOf(events[..FirstSettling(events)])
    ensures FirstSettling(events) == |events| ==> late == [] && settled.None? && !killed
    ensures FirstSettling(events) < |events| ==>
      var t := FirstSettling(events);
      late == ChunksOf(events[t + 1..]) && killed == events[t].TimerFired?
      && settled == Some(SettleWith(events[t], Concat(early), timeout))
  {
    var output := "";
    early, late, settled, killed := [], [], None, false;
    ghost var t := FirstSettling(events);
    var i := 0;
    while i < |events| && settled.None?
      invariant 0 <= i <= |events|
      invariant settled.None? ==> i <= t && early == ChunksOf(events[..i]) && output == Concat(early) && !killed
      invariant settled.Some? ==> i == t + 1 && early == ChunksOf(events[..t])
      invariant settled.Some? ==> settled == Some(SettleWith(events[t], Concat(early), timeout)) && killed == events[t].TimerFired?
      decreases |events| - i
    {
      var e := events[i];
      if e.Data? {
        output := output + e.text;
        ChunksSnoc(events, 0, i);
        ConcatAppend(early, [Chunk(e.text, e.channel)]);
        early := early + [Chunk(e.text, e.channel)];
      } else {
        assert i == t;
        killed := e.TimerFired?;
        settled := Some(SettleWith(e, output, timeout));
      }
      i := i + 1;
    }
    assert events[..|events|] == events;
    if settled.Some? {
      late := CalledBackAfterSettling(events, i);
    }
  }

  /**
   * The listeners from event `from` on, once the promise has settled: each
   * `data` event still reaches `onOutput`; `close` and `error` only try to
   * settle a settled promise, and the timer is cleared or has fired.
   */
  method CalledBackAfterSettling(events: seq<Event>, from: nat) returns (late: seq<Chunk>)
    requires from <= |events|
    ensures late == ChunksOf(events[from..])
  {
    late := [];
    var i := from;
    while i < |events|
      invariant from <= i <= |events|
      invariant late == ChunksOf(events[from..i])
      decreases |events| - i
    {
      var e := events[i];
      if e.Data? {
        late := late + [Chunk(e.text, e.channel)];
      }
      ChunksSnoc(events, from, i);
      i := i + 1;
    }
    assert events[from..|events|] == events[from..];
  }

  /**
   * `runAgent(prompt, {agent, timeout, onOutput})`: an unknown agent name
   * rejects before anything is spawned; otherwise the prompt is written to
   * stdin and stdin is closed, the listeners see the events, and when nothing
   * settled the promise the timer fires after the last event.
   */
  method RunAgent(prompt: string, name: string, timeout: nat, events: seq<Event>) returns (x: Execution)
    ensures x == Execute(name, prompt, timeout, events)
  {
    var config := Lookup(name);
    if config.None? {
      return Execution(None, [], Observation([], [], false, Rejected(UnknownAgentMessage(name))));
    }
    var stdin := [Write(prompt), EndInput];
    var early, late, settled, killed := Listen(events, timeout);
    if settled.None? {
      killed := true;
      settled := Some(Rejected(TimeoutMessage(timeout)));
    }
    x := Execution(config, stdin, Observation(early, late, killed, settled.value));
  }
}
