/**
 * The dashboard's broadcast state (`LoopServer` in src/lib/server.js).
 *
 * One object holds a snapshot of the run (status, one entry per story, the
 * output buffer, the current story, the start time and the completed count),
 * the set of connected clients and a table of event listeners. Every
 * operation is a sequential update of those fields.
 *
 * The WebSocket layer is abstracted: a client is an id, whether its
 * `readyState` is OPEN is a set of ids, and what `ws.send` would put on the
 * wire is appended to a log of deliveries. Listener functions are ids too;
 * calling one is recorded in a log of calls. Line ids and timestamps
 * (`Date.now() + Math.random()`) are not modelled; the clock is a parameter.
 */
module Server {

  import opened Wrappers
  import opened Text
  import Prd

  type ClientId = nat
  type ListenerId = nat

  /** The port used when none is given. */
  const DefaultPort := 3099

  /** The output buffer keeps the last 500 lines. */
  const OutputLimit := 500

  /** The `type` tag of an output line. */
  datatype LineKind = Info | Dim | Success | Error | Warning | File | Command | Default {
    function Name(): string {
      match this
      case Info => "info"
      case Dim => "dim"
      case Success => "success"
      case Error => "error"
      case Warning => "warning"
      case File => "file"
      case Command => "command"
      case Default => "default"
    }
  }

  /** The run status the server reports. */
  datatype RunStatus = Idle | Running | Complete | Stopped {
    function Name(): string {
      match this
      case Idle => "idle"
      case Running => "running"
      case Complete => "complete"
      case Stopped => "stopped"
    }
  }

  /** One line of the output buffer (its random id and timestamp left out). */
  datatype OutputLine = OutputLine(text: string, kind: LineKind)

  /**
   * The projection of one story that the dashboard shows. The status is a
   * string because the dashboard accepts any status: "pending", "running",
   * "passed" or "failed" from this server.
   */
  datatype StoryEntry = StoryEntry(id: string, title: string, status: string, priority: int, duration: Option<int>)

  /** The messages the server sends, by their `type`. */
  datatype Message =
    | StoriesMsg(entries: seq<StoryEntry>)
    | StatusMsg(status: RunStatus)
    | OutputMsg(text: string, kind: LineKind)
      /** `{type: "output", lines: []}`: an output message that carries no `payload`. */
    | ClearedMsg
    | StoryStartMsg(storyId: string, title: string, iteration: int, attempt: int, remaining: int)
    | StoryEndMsg(storyId: string, passed: bool, duration: int, completedCount: nat, totalCount: nat)
    | LoopCompleteMsg(success: bool, duration: int, completedCount: nat, totalCount: nat)

  /** One `ws.send`: the client and the message. */
  datatype Delivery = Delivery(client: ClientId, message: Message)

  /** One listener invocation made by `emit`. */
  datatype Call = Call(event: string, listener: ListenerId)

  predicate NoDuplicates(s: seq<ClientId>) {
    forall i, j :: 0 <= i < j < |s| ==> s[i] != s[j]
  }

  // ---------------------------------------------------------------------
  // Classifying output lines
  // ---------------------------------------------------------------------

  /** The marker tests `classifyLine` tries, in order; a line matching none is `Default`. */
  const Rules: seq<LineKind> := [Success, Error, File, Command]

  /** The regular expression `/\.(js|jsx|ts|tsx|json|md|css)/`: a dot followed by one of the extensions. */
  predicate HasSourceExtension(line: string) {
    Contains(line, ".js") || Contains(line, ".jsx") || Contains(line, ".ts") || Contains(line, ".tsx")
    || Contains(line, ".json") || Contains(line, ".md") || Contains(line, ".css")
  }

  /** Whether `line` carries the markers of `kind`. */
  predicate Matches(kind: LineKind, line: string) {
    match kind
    case Success => Contains(line, "✓") || Contains(line, "✅") || Contains(line, "PASS")
    case Error =>
      Contains(line, "✗") || Contains(line, "❌") || Contains(line, "ERROR") || Contains(line, "FAIL")
    case File => HasSourceExtension(line) || Contains(line, "src/") || Contains(line, "./")
    case Command => StartsWith(line, ">") || StartsWith(line, "$")
    case _ => false
  }

  /** `classifyLine`: the markers are tried in the order of `Rules`; a line carrying none is `Default`. */
  function ClassifyLine(line: string): LineKind {
    if Contains(line, "✓") || Contains(line, "✅") || Contains(line, "PASS") then Success
    else if Contains(line, "✗") || Contains(line, "❌") || Contains(line, "ERROR") || Contains(line, "FAIL") then Error
    else if HasSourceExtension(line) || Contains(line, "src/") || Contains(line, "./") then File
    else if StartsWith(line, ">") || StartsWith(line, "$") then Command
    else Default
  }

  /** The class of a line is the first rule whose markers it carries, and `Default` iff it carries none. */
  lemma ClassifyLineFirstMatch(line: string)
    ensures ClassifyLine(line) == Default <==> forall i :: 0 <= i < |Rules| ==> !Matches(Rules[i], line)
    ensures ClassifyLine(line) != Default ==>
      exists i :: 0 <= i < |Rules| && Rules[i] == ClassifyLine(line) && Matches(Rules[i], line)
        && forall j :: 0 <= j < i ==> !Matches(Rules[j], line)
  {
    if Matches(Rules[0], line) {
    } else if Matches(Rules[1], line) {
    } else if Matches(Rules[2], line) {
    } else if Matches(Rules[3], line) {
    } else {
    }
  }

  // ---------------------------------------------------------------------
  // Agent output
  // ---------------------------------------------------------------------

  /**
   * The entries `agentOutput` adds for a list of lines: one per line that is
   * not whitespace only, classified, in order.
   */
  function OutputEntries(lines: seq<string>): (entries: seq<OutputLine>)
    ensures |entries| <= |lines|
    decreases |lines|
  {
    if |lines| == 0 then [] else OutputEntries(lines[..|lines| - 1]) + LineEntry(lines[|lines| - 1])
  }

  /** What the `forEach` callback of `agentOutput` adds for one line: nothing for a blank line. */
  function LineEntry(line: string): (entry: seq<OutputLine>)
    ensures |entry| <= 1
  {
    if IsBlank(line) then [] else [OutputLine(line, ClassifyLine(line))]
  }

  lemma OutputEntriesSnoc(lines: seq<string>, i: nat)
    requires i < |lines|
    ensures OutputEntries(lines[..i + 1]) == OutputEntries(lines[..i]) + LineEntry(lines[i])
  {
    assert lines[..i + 1][..i] == lines[..i];
  }

  /** Every entry is a line of the input that is not blank, with its class. */
  lemma {:induction false} EntriesAreClassifiedLines(lines: seq<string>)
    ensures forall k :: 0 <= k < |OutputEntries(lines)| ==>
      var e := OutputEntries(lines)[k];
      !IsBlank(e.text) && e.text in lines && e.kind == ClassifyLine(e.text)
    decreases |lines|
  {
    if |lines| > 0 {
      var init := lines[..|lines| - 1];
      EntriesAreClassifiedLines(init);
      forall x | x in init ensures x in lines { }
    }
  }

  /** The entries for the lines of an agent's output chunk. */
  function AgentLines(text: string): seq<OutputLine> {
    OutputEntries(Split(text, '\n'))
  }

  function Texts(lines: seq<OutputLine>): (texts: seq<string>)
    ensures |texts| == |lines|
    decreases |lines|
  {
    if |lines| == 0 then [] else Texts(lines[..|lines| - 1]) + [lines[|lines| - 1].text]
  }

  /** A chunk none of whose lines is blank is kept whole: its entries joined by newlines give the chunk back. */
  lemma {:induction false} EveryLineKept(text: string)
    requires forall k :: 0 <= k < |Split(text, '\n')| ==> !IsBlank(Split(text, '\n')[k])
    ensures Texts(AgentLines(text)) == Split(text, '\n')
    ensures Join(Texts(AgentLines(text)), '\n') == text
  {
    NonBlankKept(Split(text, '\n'));
    JoinSplit(text, '\n');
  }

  lemma {:induction false} NonBlankKept(lines: seq<string>)
    requires forall k :: 0 <= k < |lines| ==> !IsBlank(lines[k])
    ensures Texts(OutputEntries(lines)) == lines
    decreases |lines|
  {
    if |lines| > 0 {
      var init, last := lines[..|lines| - 1], lines[|lines| - 1];
      NonBlankKept(init);
      var es, le := OutputEntries(init), LineEntry(last);
      NonBlankEntry(last);
      var all := es + le;
      assert all[..|es|] == es && all[|es|].text == last;
      assert Texts(all) == Texts(es) + [last];
      assert lines == init + [last];
    }
  }

  /** A line that is not blank makes one entry, carrying the line. */
  lemma NonBlankEntry(line: string)
    requires !IsBlank(line)
    ensures |LineEntry(line)| == 1 && LineEntry(line)[0].text == line
  {
  }

  /** Whitespace-only lines add nothing: a chunk made only of them adds no entry. */
  lemma {:induction false} BlankLinesDropped(lines: seq<string>)
    requires forall k :: 0 <= k < |lines| ==> IsBlank(lines[k])
    ensures OutputEntries(lines) == []
    decreases |lines|
  {
    if |lines| > 0 {
      BlankLinesDropped(lines[..|lines| - 1]);
    }
  }

  // ---------------------------------------------------------------------
  // Delivery
  // ---------------------------------------------------------------------

  /** What `broadcast(m)` sends: `m` to each client, in set order, whose state is OPEN. */
  function Deliveries(clients: seq<ClientId>, open: set<ClientId>, m: Message): seq<Delivery>
    decreases |clients|
  {
    if |clients| == 0 then []
    else
      var c := clients[|clients| - 1];
      Deliveries(clients[..|clients| - 1], open, m) + (if c in open then [Delivery(c, m)] else [])
  }

  /** A broadcast reaches a client iff it is connected and OPEN, and it carries the broadcast message. */
  lemma {:induction false} DeliveredExactlyToOpenClients(clients: seq<ClientId>, open: set<ClientId>, m: Message, d: Delivery)
    ensures d in Deliveries(clients, open, m) <==> d.client in clients && d.client in open && d.message == m
    decreases |clients|
  {
    if |clients| > 0 {
      var init := clients[..|clients| - 1];
      DeliveredExactlyToOpenClients(init, open, m, d);
      assert clients == init + [clients[|clients| - 1]];
    }
  }

  /** The broadcasts announcing each of `lines`, one after the other, as `addOutput` makes them. */
  function Announced(clients: seq<ClientId>, open: set<ClientId>, lines: seq<OutputLine>): seq<Delivery>
    decreases |lines|
  {
    if |lines| == 0 then []
    else
      var last := lines[|lines| - 1];
      Announced(clients, open, lines[..|lines| - 1]) + Deliveries(clients, open, OutputMsg(last.text, last.kind))
  }

  lemma AnnouncedSnoc(clients: seq<ClientId>, open: set<ClientId>, lines: seq<OutputLine>, line: OutputLine)
    ensures Announced(clients, open, lines + [line])
      == Announced(clients, open, lines) + Deliveries(clients, open, OutputMsg(line.text, line.kind))
  {
    assert (lines + [line])[..|lines|] == lines;
  }

  /** Announcing the next of `lines` after a prefix of them announces the next prefix. */
  lemma AnnounceNext(base: seq<Delivery>, clients: seq<ClientId>, open: set<ClientId>, lines: seq<OutputLine>, k: nat)
    requires k < |lines|
    ensures (base + Announced(clients, open, lines[..k])) + Deliveries(clients, open, OutputMsg(lines[k].text, lines[k].kind))
      == base + Announced(clients, open, lines[..k + 1])
  {
    assert lines[..k + 1] == lines[..k] + [lines[k]];
    AnnouncedSnoc(clients, open, lines[..k], lines[k]);
    AppendAssoc(base, Announced(clients, open, lines[..k]), Deliveries(clients, open, OutputMsg(lines[k].text, lines[k].kind)));
  }

  /** One more line of an agent chunk extends what was added and what was sent by its entry. */
  lemma AgentLineStep(added: seq<OutputLine>, sent: seq<Delivery>, clients: seq<ClientId>, open: set<ClientId>,
                      lines: seq<string>, i: nat)
    requires i < |lines|
    ensures added + OutputEntries(lines[..i]) + LineEntry(lines[i]) == added + OutputEntries(lines[..i + 1])
    ensures sent + Announced(clients, open, OutputEntries(lines[..i])) + Announced(clients, open, LineEntry(lines[i]))
      == sent + Announced(clients, open, OutputEntries(lines[..i + 1]))
  {
    var done := OutputEntries(lines[..i]);
    OutputEntriesSnoc(lines, i);
    AnnouncedAppend(clients, open, done, LineEntry(lines[i]));
    AppendAssoc(added, done, LineEntry(lines[i]));
    AppendAssoc(sent, Announced(clients, open, done), Announced(clients, open, LineEntry(lines[i])));
  }

  /** Announcing two runs of lines one after the other sends what announcing them together sends. */
  lemma {:induction false} AnnouncedAppend(clients: seq<ClientId>, open: set<ClientId>, a: seq<OutputLine>, b: seq<OutputLine>)
    ensures Announced(clients, open, a + b) == Announced(clients, open, a) + Announced(clients, open, b)
    decreases |b|
  {
    if |b| > 0 {
      var init, last := b[..|b| - 1], b[|b| - 1];
      assert a + b == (a + init) + [last];
      AnnouncedSnoc(clients, open, a + init, last);
      AnnouncedAppend(clients, open, a, init);
      assert b == init + [last];
      AnnouncedSnoc(clients, open, init, last);
    } else {
      assert a + b == a;
    }
  }

  /** `clients.delete(c)`: the set without `c`, the others in their order. */
  function Without(clients: seq<ClientId>, c: ClientId): (r: seq<ClientId>)
    ensures c !in r
    ensures forall x :: x != c ==> (x in r <==> x in clients)
    ensures |r| <= |clients|
    decreases |clients|
  {
    if |clients| == 0 then []
    else if clients[0] == c then Without(clients[1..], c)
    else [clients[0]] + Without(clients[1..], c)
  }

  /** Removing a client keeps the others in their set order: removal distributes over concatenation. */
  lemma {:induction false} WithoutAppend(a: seq<ClientId>, b: seq<ClientId>, c: ClientId)
    ensures Without(a + b, c) == Without(a, c) + Without(b, c)
    decreases |a|
  {
    if |a| > 0 {
      assert (a + b)[1..] == a[1..] + b;
      WithoutAppend(a[1..], b, c);
    } else {
      assert a + b == b;
    }
  }

  lemma {:induction false} WithoutKeepsNoDuplicates(clients: seq<ClientId>, c: ClientId)
    requires NoDuplicates(clients)
    ensures NoDuplicates(Without(clients, c))
    decreases |clients|
  {
    if |clients| > 0 {
      WithoutKeepsNoDuplicates(clients[1..], c);
      var rest := Without(clients[1..], c);
      assert clients[0] !in clients[1..];
      assert clients[0] !in rest;
    }
  }

  /** The listeners registered for `event`, in registration order (none when the key is missing). */
  function ListenersFor(table: map<string, seq<ListenerId>>, event: string): seq<ListenerId> {
    if event in table then table[event] else []
  }

  /** The calls `emit(event)` makes: each listener of the event, in order. */
  function CallsOf(event: string, fns: seq<ListenerId>): (calls: seq<Call>)
    ensures |calls| == |fns|
    ensures forall i :: 0 <= i < |fns| ==> calls[i] == Call(event, fns[i])
    decreases |fns|
  {
    if |fns| == 0 then [] else CallsOf(event, fns[..|fns| - 1]) + [Call(event, fns[|fns| - 1])]
  }

  // ---------------------------------------------------------------------
  // Story projection
  // ---------------------------------------------------------------------

  /** What `loopStart` shows for one story. */
  function EntryOf(s: Prd.Story): StoryEntry {
    StoryEntry(s.id, s.title, if s.passes then "passed" else "pending", s.priority, None)
  }

  /** `prd.stories.map(...)` in `loopStart`. */
  function Projection(stories: seq<Prd.Story>): (entries: seq<StoryEntry>)
    ensures |entries| == |stories|
    decreases |stories|
  {
    if |stories| == 0 then [] else [EntryOf(stories[0])] + Projection(stories[1..])
  }

  /** Number of entries with the given status. */
  function CountStatus(entries: seq<StoryEntry>, status: string): (n: nat)
    ensures n <= |entries|
    decreases |entries|
  {
    if |entries| == 0 then 0
    else (if entries[0].status == status then 1 else 0) + CountStatus(entries[1..], status)
  }

  /**
   * `loopStart`'s projection: one entry per story, in order, "passed" iff the
   * story passes and "pending" otherwise, no duration; and the completed
   * count it stores is the number of "passed" entries.
   */
  lemma {:induction false} ProjectionCountsPassing(stories: seq<Prd.Story>)
    ensures forall k :: 0 <= k < |stories| ==>
      var e := Projection(stories)[k];
      e.id == stories[k].id && e.title == stories[k].title && e.priority == stories[k].priority
      && e.duration.None? && (e.status == "passed" <==> stories[k].passes)
      && (e.status == "pending" <==> !stories[k].passes)
    ensures CountStatus(Projection(stories), "passed") == Prd.CountPassing(stories)
    decreases |stories|
  {
    if |stories| > 0 {
      ProjectionCountsPassing(stories[1..]);
      assert Projection(stories)[1..] == Projection(stories[1..]);
    }
  }

  /** The index of the first entry for `id` (`stories.find((s) => s.id === id)`). */
  function FirstWithId(entries: seq<StoryEntry>, id: string): (r: Option<nat>)
    ensures r.Some? ==> r.value < |entries| && entries[r.value].id == id
    ensures r.Some? ==> forall j :: 0 <= j < r.value ==> entries[j].id != id
    ensures r.None? ==> forall j :: 0 <= j < |entries| ==> entries[j].id != id
    decreases |entries|
  {
    if |entries| == 0 then None
    else if entries[0].id == id then Some(0)
    else
      match FirstWithId(entries[1..], id)
      case None => None
      case Some(k) => Some(k + 1)
  }

  /** Whether some entry carries `id`. */
  predicate HasEntry(entries: seq<StoryEntry>, id: string) {
    exists j :: 0 <= j < |entries| && entries[j].id == id
  }

  /** `storyStart` on the projection: the first entry for `id`, if any, becomes "running". */
  function Started(entries: seq<StoryEntry>, id: string): seq<StoryEntry> {
    match FirstWithId(entries, id)
    case None => entries
    case Some(k) => entries[k := entries[k].(status := "running")]
  }

  /** `storyEnd` on the projection: the first entry for `id`, if any, gets the verdict and the duration. */
  function Ended(entries: seq<StoryEntry>, id: string, passed: bool, duration: int): seq<StoryEntry> {
    match FirstWithId(entries, id)
    case None => entries
    case Some(k) => entries[k := entries[k].(status := if passed then "passed" else "failed", duration := Some(duration))]
  }

  /**
   * Marking a story touches one entry only: the first entry with the story's
   * id, whose status (and, at the end, duration) change; every other entry,
   * including a later one with the same id, stays as it was.
   */
  lemma StoryMarksChangeFirstEntryOnly(entries: seq<StoryEntry>, id: string, passed: bool, duration: int)
    ensures |Started(entries, id)| == |entries| && |Ended(entries, id, passed, duration)| == |entries|
    ensures forall j :: 0 <= j < |entries| && (entries[j].id != id || exists i :: 0 <= i < j && entries[i].id == id) ==>
      Started(entries, id)[j] == entries[j] && Ended(entries, id, passed, duration)[j] == entries[j]
    ensures forall j :: 0 <= j < |entries| && entries[j].id == id && (forall i :: 0 <= i < j ==> entries[i].id != id) ==>
      Started(entries, id)[j] == entries[j].(status := "running")
      && Ended(entries, id, passed, duration)[j]
         == entries[j].(status := if passed then "passed" else "failed", duration := Some(duration))
  {
    match FirstWithId(entries, id)
    case None =>
    case Some(k) =>
      forall j | 0 <= j < |entries| && entries[j].id == id && (forall i :: 0 <= i < j ==> entries[i].id != id)
        ensures j == k
      {
      }
  }

  // ---------------------------------------------------------------------
  // Elapsed time
  // ---------------------------------------------------------------------

  /**
   * `Math.floor(d / 60000)` and `Math.floor((d % 60000) / 1000)`: whole
   * minutes and the whole seconds left over. For a duration that is not
   * negative the seconds are below 60 and the two together round the
   * duration down to the second.
   */
  function ElapsedParts(duration: int): (parts: (int, int))
    ensures duration >= 0 ==> 0 <= parts.1 < 60 && parts.0 >= 0
    ensures duration >= 0 ==>
      parts.0 * 60000 + parts.1 * 1000 <= duration < parts.0 * 60000 + parts.1 * 1000 + 1000
    ensures duration < 0 ==> -60 <= parts.1 <= 0
  {
    (duration / 60000, JsRemainder(duration, 60000) / 1000)
  }

  /** `"━".repeat(50)`. */
  const HeavyRule: string := "━━━━━━━━━━━━━━━━━━━━━━━━━━━━━━━━━━━━━━━━━━━━━━━━━━"

  // ---------------------------------------------------------------------
  // The server object
  // ---------------------------------------------------------------------

  class LoopServer {
    var port: int
    /** Whether `start` has created the WebSocket server (`this.wss`). */
    var listening: bool
    /** `this.state.status`. */
    var status: RunStatus
    /** `this.state.stories`. */
    var stories: seq<StoryEntry>
    /** `this.state.output`. */
    var output: seq<OutputLine>
    /** `this.state.currentStory`. */
    var currentStory: Option<string>
    /** `this.state.startTime`. */
    var startTime: Option<int>
    /** `this.state.completedCount`. */
    var completedCount: nat
    /** `this.clients`, in insertion order. */
    var clients: seq<ClientId>
    /** The sockets whose `readyState` is OPEN. */
    var isOpen: set<ClientId>
    /** Every `ws.send`, in order. */
    var sent: seq<Delivery>
    /** The clients `stop` asked to close, in order. */
    var closing: seq<ClientId>
    /** `this._listeners`. */
    var listeners: map<string, seq<ListenerId>>
    /** Every listener call `emit` made, in order. */
    var called: seq<Call>
    /** The lines added to the output since it was last emptied. */
    ghost var added: seq<OutputLine>

    /** The output buffer is the last 500 lines added since it was last emptied; a client is in the set once. */
    ghost predicate Valid()
      reads this
    {
      output == Tail(added, OutputLimit) && NoDuplicates(clients)
    }

    constructor (port: Option<int>)
      ensures Valid()
      ensures this.port == port.GetOr(DefaultPort) && !listening
      ensures status == Idle && stories == [] && output == [] && currentStory == None
      ensures startTime == None && completedCount == 0
      ensures clients == [] && isOpen == {} && sent == [] && closing == []
      ensures listeners == map[] && called == [] && added == []
    {
      this.port := port.GetOr(DefaultPort);
      listening := false;
      status, stories, output, currentStory, startTime, completedCount := Idle, [], [], None, None, 0;
      clients, isOpen, sent, closing := [], {}, [], [];
      listeners, called := map[], [];
      added := [];
    }

    /** `start`: the WebSocket server is created (binding the port is not modelled). */
    method Start()
      modifies this`listening
      ensures listening
    {
      listening := true;
    }

    /** `send(ws, data)`: delivered only when the socket is OPEN. */
    method Send(c: ClientId, m: Message)
      modifies this`sent
      ensures sent == old(sent) + (if c in isOpen then [Delivery(c, m)] else [])
    {
      if c in isOpen {
        sent := sent + [Delivery(c, m)];
      }
    }

    /** `broadcast(data)`: to every client in the set whose socket is OPEN, in set order. */
    method Broadcast(m: Message)
      modifies this`sent
      ensures sent == old(sent) + Deliveries(clients, isOpen, m)
    {
      var i := 0;
      while i < |clients|
        invariant 0 <= i <= |clients|
        invariant sent == old(sent) + Deliveries(clients[..i], isOpen, m)
      {
        var c := clients[i];
        if c in isOpen {
          sent := sent + [Delivery(c, m)];
        }
        assert clients[..i + 1][..i] == clients[..i];
        i := i + 1;
      }
      assert clients[..|clients|] == clients;
    }

    /**
     * A `connection` event: the new socket joins the set and is sent the
     * stories snapshot, then the status snapshot.
     */
    method OnConnection(c: ClientId)
      requires Valid() && c !in clients
      modifies this`clients, this`isOpen, this`sent
      ensures Valid()
      ensures clients == old(clients) + [c] && isOpen == old(isOpen) + {c}
      ensures sent == old(sent) + [Delivery(c, StoriesMsg(stories)), Delivery(c, StatusMsg(status))]
    {
      clients := clients + [c];
      isOpen := isOpen + {c};
      Send(c, StoriesMsg(stories));
      Send(c, StatusMsg(status));
    }

    /** The socket leaves the OPEN state (it is closing); its `close` or `error` event comes later. */
    method Closing(c: ClientId)
      modifies this`isOpen
      ensures isOpen == old(isOpen) - {c}
    {
      isOpen := isOpen - {c};
    }

    /** A client's `close` event: the socket is closed and leaves the set. */
    method OnClose(c: ClientId)
      requires Valid()
      modifies this`clients, this`isOpen
      ensures Valid()
      ensures clients == Without(old(clients), c) && isOpen == old(isOpen) - {c}
    {
      WithoutKeepsNoDuplicates(clients, c);
      clients := Without(clients, c);
      isOpen := isOpen - {c};
    }

    /** A client's `error` event: the socket leaves the set. */
    method OnError(c: ClientId)
      requires Valid()
      modifies this`clients
      ensures Valid()
      ensures clients == Without(old(clients), c)
    {
      WithoutKeepsNoDuplicates(clients, c);
      clients := Without(clients, c);
    }

    /**
     * `stop`: once the server was started, every client is asked to close
     * (its socket is then no longer OPEN) and the set is emptied.
     */
    method Stop()
      requires Valid()
      modifies this`clients, this`isOpen, this`closing
      ensures Valid()
      ensures old(listening) ==>
        clients == [] && closing == old(closing) + old(clients)
        && isOpen == old(isOpen) - (set c | c in old(clients))
      ensures !old(listening) ==> clients == old(clients) && closing == old(closing) && isOpen == old(isOpen)
    {
      if listening {
        closing := closing + clients;
        isOpen := isOpen - (set c | c in clients);
        clients := [];
      }
    }

    /** `on(event, fn)`: `fn` joins the end of the event's list. */
    method On(event: string, fn: ListenerId)
      modifies this`listeners
      ensures ListenersFor(listeners, event) == ListenersFor(old(listeners), event) + [fn]
      ensures forall e :: e != event ==> ListenersFor(listeners, e) == ListenersFor(old(listeners), e)
    {
      listeners := listeners[event := ListenersFor(listeners, event) + [fn]];
    }

    /** `emit(event)`: each listener of the event is called once, in registration order. */
    method Emit(event: string)
      modifies this`called
      ensures called == old(called) + CallsOf(event, ListenersFor(listeners, event))
    {
      var fns := ListenersFor(listeners, event);
      var i := 0;
      while i < |fns|
        invariant 0 <= i <= |fns|
        invariant called == old(called) + CallsOf(event, fns[..i])
      {
        called := called + [Call(event, fns[i])];
        assert fns[..i + 1][..i] == fns[..i];
        i := i + 1;
      }
      assert fns[..|fns|] == fns;
    }

    /**
     * `handleMessage`: "start" and "stop" emit `ui:start` and `ui:stop`;
     * "clear" empties the output buffer and broadcasts an output message
     * whose field is `lines` rather than `payload`; any other type changes
     * nothing.
     */
    method HandleMessage(kind: string)
      requires Valid()
      modifies this`output, this`added, this`sent, this`called
      ensures Valid()
      ensures kind == "start" ==> called == old(called) + CallsOf("ui:start", ListenersFor(listeners, "ui:start"))
      ensures kind == "stop" ==> called == old(called) + CallsOf("ui:stop", ListenersFor(listeners, "ui:stop"))
      ensures kind !in {"start", "stop"} ==> called == old(called)
      ensures kind == "clear" ==>
        output == [] && added == [] && sent == old(sent) + Deliveries(clients, isOpen, ClearedMsg)
      ensures kind != "clear" ==> output == old(output) && added == old(added) && sent == old(sent)
    {
      if kind == "start" {
        Emit("ui:start");
      } else if kind == "stop" {
        Emit("ui:stop");
      } else if kind == "clear" {
        output := [];
        added := [];
        Broadcast(ClearedMsg);
      }
    }

    /**
     * `addOutput(text, type)`: the line is appended, the buffer is cut back
     * to its last 500 lines, and the line is broadcast.
     */
    method AddOutput(text: string, kind: LineKind)
      requires Valid()
      modifies this`output, this`added, this`sent
      ensures Valid()
      ensures added == old(added) + [OutputLine(text, kind)]
      ensures |output| <= OutputLimit && output[|output| - 1] == OutputLine(text, kind)
      ensures sent == old(sent) + Deliveries(clients, isOpen, OutputMsg(text, kind))
    {
      var line := OutputLine(text, kind);
      var next := output + [line];
      if |next| > OutputLimit {
        next := next[|next| - OutputLimit..];
      }
      TailAppend(added, line, OutputLimit);
      output := next;
      added := added + [line];
      Broadcast(OutputMsg(text, kind));
    }

    /**
     * `agentOutput(text)`: one output line per newline-separated line that is
     * not whitespace only, classified, in order.
     */
    method AgentOutput(text: string)
      requires Valid()
      modifies this`output, this`added, this`sent
      ensures Valid()
      ensures added == old(added) + AgentLines(text)
      ensures sent == old(sent) + Announced(clients, isOpen, AgentLines(text))
    {
      var lines := Split(text, '\n');
      var i := 0;
      while i < |lines|
        invariant 0 <= i <= |lines|
        invariant Valid()
        invariant added == old(added) + OutputEntries(lines[..i])
        invariant sent == old(sent) + Announced(clients, isOpen, OutputEntries(lines[..i]))
      {
        AddAgentLine(lines[i]);
        AgentLineStep(old(added), old(sent), clients, isOpen, lines, i);
        i := i + 1;
      }
      assert lines[..|lines|] == lines;
    }

    /** The `forEach` callback of `agentOutput`: a line that is not blank is added with its class. */
    method AddAgentLine(line: string)
      requires Valid()
      modifies this`output, this`added, this`sent
      ensures Valid()
      ensures added == old(added) + LineEntry(line)
      ensures sent == old(sent) + Announced(clients, isOpen, LineEntry(line))
    {
      if !IsBlank(line) {
        var kind := ClassifyLine(line);
        AnnouncedSnoc(clients, isOpen, [], OutputLine(line, kind));
        AddOutput(line, kind);
      }
    }

    /** Consecutive `addOutput` calls, one per line, in order. */
    method AddLines(lines: seq<OutputLine>)
      requires Valid()
      modifies this`output, this`added, this`sent
      ensures Valid()
      ensures added == old(added) + lines
      ensures sent == old(sent) + Announced(clients, isOpen, lines)
    {
      var k := 0;
      while k < |lines|
        invariant 0 <= k <= |lines|
        invariant Valid()
        invariant added == old(added) + lines[..k]
        invariant sent == old(sent) + Announced(clients, isOpen, lines[..k])
      {
        AddOutput(lines[k].text, lines[k].kind);
        AnnounceNext(old(sent), clients, isOpen, lines, k);
        PrefixSnoc(old(added), lines, k);
        k := k + 1;
      }
      assert lines[..|lines|] == lines;
    }

    /**
     * `loopStart(prd)`: a fresh snapshot (running, the stories projected,
     * the output empty, no current story, the count of passing stories), then
     * the stories and the status are broadcast.
     */
    method LoopStart(prd: Prd.Document, now: int)
      requires Valid()
      modifies this`status, this`stories, this`output, this`currentStory, this`startTime, this`completedCount
      modifies this`added, this`sent
      ensures Valid()
      ensures status == Running && stories == Projection(prd.stories) && output == [] && currentStory == None
      ensures startTime == Some(now) && completedCount == Prd.CountPassing(prd.stories)
      ensures added == []
      ensures sent == old(sent) + Deliveries(clients, isOpen, StoriesMsg(stories))
        + Deliveries(clients, isOpen, StatusMsg(Running))
    {
      status, stories, output, currentStory := Running, Projection(prd.stories), [], None;
      startTime, completedCount := Some(now), Prd.CountPassing(prd.stories);
      added := [];
      Broadcast(StoriesMsg(stories));
      Broadcast(StatusMsg(Running));
    }

    /**
     * `storyStart(story, context)`: the story becomes the current one, its
     * entry is marked running, the start is broadcast and two lines are
     * added to the output.
     */
    method StoryStart(story: Prd.Story, iteration: int, attempt: int, remaining: int)
      requires Valid()
      modifies this`currentStory, this`stories, this`output, this`added, this`sent
      ensures Valid()
      ensures currentStory == Some(story.id) && stories == Started(old(stories), story.id)
      ensures added == old(added) + StoryStartLines(story, iteration, attempt)
      ensures sent == old(sent)
        + Deliveries(clients, isOpen, StoryStartMsg(story.id, story.title, iteration, attempt, remaining))
        + Announced(clients, isOpen, StoryStartLines(story, iteration, attempt))
    {
      currentStory := Some(story.id);
      stories := Started(stories, story.id);
      Broadcast(StoryStartMsg(story.id, story.title, iteration, attempt, remaining));
      AddLines(StoryStartLines(story, iteration, attempt));
    }

    /**
     * `storyEnd(story, result)`: the story's entry gets the verdict and the
     * duration, the completed count grows by one iff the entry exists and
     * the story passed, there is no current story any more, a line is added
     * and the end is broadcast with the new counts. `secondsText` is the
     * duration in seconds with one decimal (`toFixed(1)`).
     */
    method StoryEnd(story: Prd.Story, passed: bool, duration: int, secondsText: string)
      requires Valid()
      modifies this`stories, this`completedCount, this`currentStory, this`output, this`added, this`sent
      ensures Valid()
      ensures stories == Ended(old(stories), story.id, passed, duration)
      ensures completedCount == old(completedCount) + (if passed && HasEntry(old(stories), story.id) then 1 else 0)
      ensures currentStory == None
      ensures added == old(added) + [StoryEndLine(story, passed, secondsText)]
      ensures sent == old(sent)
        + Deliveries(clients, isOpen, OutputMsg(StoryEndLine(story, passed, secondsText).text, StoryEndLine(story, passed, secondsText).kind))
        + Deliveries(clients, isOpen, StoryEndMsg(story.id, passed, duration, completedCount, |stories|))
    {
      var count := completedCount;
      match FirstWithId(stories, story.id) {
        case Some(_) =>
          if passed {
            count := count + 1;
          }
        case None =>
      }
      stories, completedCount, currentStory := Ended(stories, story.id, passed, duration), count, None;
      var line := StoryEndLine(story, passed, secondsText);
      AddOutput(line.text, line.kind);
      Broadcast(StoryEndMsg(story.id, passed, duration, completedCount, |stories|));
    }

    /**
     * `loopComplete(result)`: the status becomes "complete" on success and
     * "stopped" otherwise, there is no current story, four lines (with the
     * elapsed minutes and seconds) are added and the end is broadcast. A
     * server never started counts from time 0, as `Date.now() - null` does.
     */
    method LoopComplete(success: bool, now: int)
      requires Valid()
      modifies this`status, this`currentStory, this`output, this`added, this`sent
      ensures Valid()
      ensures status == (if success then Complete else Stopped) && currentStory == None
      ensures added == old(added) + LoopCompleteLines(success, now - startTime.GetOr(0))
      ensures sent == old(sent)
        + Announced(clients, isOpen, LoopCompleteLines(success, now - startTime.GetOr(0)))
        + Deliveries(clients, isOpen, LoopCompleteMsg(success, now - startTime.GetOr(0), completedCount, |stories|))
    {
      status, currentStory := if success then Complete else Stopped, None;
      var duration := now - startTime.GetOr(0);
      AddLinesThenBroadcast(LoopCompleteLines(success, duration), LoopCompleteMsg(success, duration, completedCount, |stories|));
    }

    /** Lines added one `addOutput` at a time, then one message broadcast, as `loopComplete` ends. */
    method AddLinesThenBroadcast(lines: seq<OutputLine>, m: Message)
      requires Valid()
      modifies this`output, this`added, this`sent
      ensures Valid()
      ensures added == old(added) + lines
      ensures sent == old(sent) + Announced(clients, isOpen, lines) + Deliveries(clients, isOpen, m)
    {
      AddLines(lines);
      Broadcast(m);
    }
  }

  /** The two lines `storyStart` adds. */
  function StoryStartLines(story: Prd.Story, iteration: int, attempt: int): (lines: seq<OutputLine>)
    ensures |lines| == 2
  {
    [ OutputLine("\n▶ Starting story " + story.id + ": " + story.title, Info),
      OutputLine("  Iteration " + IntToString(iteration) + ", Attempt " + IntToString(attempt), Dim) ]
  }

  /** The line `storyEnd` adds. */
  function StoryEndLine(story: Prd.Story, passed: bool, secondsText: string): OutputLine {
    OutputLine((if passed then "✅" else "❌") + " Story " + story.id + " "
      + (if passed then "PASSED" else "FAILED") + " (" + secondsText + "s)",
      if passed then Success else Error)
  }

  /** The four lines `loopComplete` adds, the third giving the elapsed time. */
  function LoopCompleteLines(success: bool, duration: int): (lines: seq<OutputLine>)
    ensures |lines| == 4
  {
    var parts := ElapsedParts(duration);
    [ OutputLine("\n" + HeavyRule, Dim),
      if success then OutputLine("\U{1F389} ALL STORIES COMPLETE!", Success) else OutputLine("⚠️ Loop ended", Warning),
      OutputLine("Total time: " + IntToString(parts.0) + "m " + IntToString(parts.1) + "s", Dim),
      OutputLine(HeavyRule, Dim) ]
  }
}
