/**
 * The dashboard's connection to the loop server (`useLoopSocket` in
 * ui/src/hooks/useLoopSocket.js).
 *
 * The hook has two halves. Its message handlers are pure updates of the
 * view state (stories, output lines, status); they are modelled here as the
 * function `Receive` over parsed JSON values. Its refs (the socket, the retry
 * delay, the pending retry timer, the cleanup flag, the next line id) change
 * step by step in response to socket events, timers and unmounting; they
 * are modelled as the class `SocketHook`, whose methods are those events.
 */
module LoopSocket {

  import opened Wrappers
  import Text
  import Server

  // ---------------------------------------------------------------------
  // Parsed JSON values
  // ---------------------------------------------------------------------

  /** A value `JSON.parse` can return (numbers restricted to integers). */
  datatype Value =
    | Null
    | Bool(b: bool)
    | Num(n: int)
    | Str(s: string)
    | Arr(items: seq<Value>)
    | Obj(fields: map<string, Value>)

  /**
   * `v.name` on a value that is not null: an object's own property, or
   * undefined (`None`) for everything else.
   */
  function Field(v: Value, name: string): (r: Option<Value>)
    ensures r.Some? ==> v.Obj? && name in v.fields && r.value == v.fields[name]
    ensures v.Obj? && name in v.fields ==> r.Some?
  {
    if v.Obj? && name in v.fields then Some(v.fields[name]) else None
  }

  /** Destructuring `const {...} = payload` throws exactly when the payload is undefined or null. */
  predicate DestructureThrows(payload: Option<Value>) {
    payload.None? || payload.value.Null?
  }

  /** `payload?.name`: undefined when the payload is undefined or null. */
  function OptField(payload: Option<Value>, name: string): (r: Option<Value>)
    ensures DestructureThrows(payload) ==> r.None?
  {
    if DestructureThrows(payload) then None else Field(payload.value, name)
  }

  /** JavaScript truthiness (`None` is undefined). */
  predicate Truthy(v: Option<Value>) {
    match v
    case None => false
    case Some(Null) => false
    case Some(Bool(b)) => b
    case Some(Num(n)) => n != 0
    case Some(Str(s)) => s != ""
    case Some(Arr(_)) => true
    case Some(Obj(_)) => true
  }

  /**
   * `a === b` between two values read from separately parsed messages:
   * primitives compare by value, while two objects or arrays are never the
   * same reference.
   */
  predicate StrictEquals(a: Option<Value>, b: Option<Value>) {
    match (a, b)
    case (None, None) => true
    case (Some(x), Some(y)) => !x.Arr? && !x.Obj? && x == y
    case _ => false
  }

  /** The text a template literal `${v}` produces. */
  function JsString(v: Value): string
    decreases v
  {
    match v
    case Null => "null"
    case Bool(b) => if b then "true" else "false"
    case Num(n) => Text.IntToString(n)
    case Str(s) => s
    case Obj(_) => "[object Object]"
    case Arr(items) =>
      // an array joins its elements with commas, null elements as empty text
      Text.Join(seq(|items|, i requires 0 <= i < |items| => if items[i].Null? then "" else JsString(items[i])), ',')
  }

  // ---------------------------------------------------------------------
  // The view state and the message reducer
  // ---------------------------------------------------------------------

  /** One line of the dashboard's output pane: `{id, text, type}`; `text` may be undefined. */
  datatype ClientLine = ClientLine(id: nat, text: Option<Value>, kind: Value)

  /**
   * The state the hook renders from: `stories`, `output`, `status`, and the
   * ref `outputIdRef` with the id the next line gets.
   */
  datatype ClientView = ClientView(stories: seq<map<string, Value>>, output: seq<ClientLine>, status: Value, nextId: nat)

  /** The state on mount: no stories, no lines, status "idle", ids starting at 1. */
  const InitialView := ClientView([], [], Str("idle"), 1)

  /** One message as the socket's `onmessage` hands it over: text that parses, or text that does not. */
  datatype Incoming = Unparsable | Parsed(message: Value)

  /**
   * Output line ids are handed out in order: every line's id is below the
   * next id, and ids strictly increase down the pane.
   */
  ghost predicate IdsIncreasing(v: ClientView) {
    (forall i :: 0 <= i < |v.output| ==> v.output[i].id < v.nextId)
    && (forall i, j :: 0 <= i < j < |v.output| ==> v.output[i].id < v.output[j].id)
  }

  /** `r` is `v` with no line added, or with one line added under the next id. */
  ghost predicate AtMostOneLine(v: ClientView, r: ClientView) {
    (r.output == v.output && r.nextId == v.nextId)
    || (|r.output| == |v.output| + 1 && r.output[..|v.output|] == v.output
        && r.output[|v.output|].id == v.nextId && r.nextId == v.nextId + 1)
  }

  /** A new output line `{id: outputIdRef.current++, text, type}` at the end of the pane. */
  function AppendLine(v: ClientView, text: Option<Value>, kind: Value): (r: ClientView)
    ensures |r.output| == |v.output| + 1 && r.output[..|v.output|] == v.output
    ensures r.output[|v.output|] == ClientLine(v.nextId, text, kind) && r.nextId == v.nextId + 1
    ensures r.stories == v.stories && r.status == v.status
    ensures AtMostOneLine(v, r)
  {
    v.(output := v.output + [ClientLine(v.nextId, text, kind)], nextId := v.nextId + 1)
  }

  /**
   * `{...story, ...update}` when the story's id is `storyId` (`===`), the
   * story itself otherwise; keys in `unset` are set to undefined, which reads
   * the same as leaving them out.
   */
  function MarkStory(story: map<string, Value>, storyId: Option<Value>, update: map<string, Value>, unset: set<string>): map<string, Value> {
    if StrictEquals(if "id" in story then Some(story["id"]) else None, storyId) then (story + update) - unset else story
  }

  /** `prev.map(...)`: every story whose id is `storyId` gets the update; the list keeps its length. */
  function MarkStories(stories: seq<map<string, Value>>, storyId: Option<Value>, update: map<string, Value>, unset: set<string>): (r: seq<map<string, Value>>)
    ensures |r| == |stories|
  {
    seq(|stories|, i requires 0 <= i < |stories| => MarkStory(stories[i], storyId, update, unset))
  }

  /** `handleStoryStart`: status "running", and every story with the id becomes "running". */
  function OnStoryStart(v: ClientView, payload: Option<Value>): ClientView {
    if DestructureThrows(payload) then v
    else
      var storyId := Field(payload.value, "storyId");
      v.(status := Str("running"), stories := MarkStories(v.stories, storyId, map["status" := Str("running")], {}))
  }

  /**
   * `handleStoryEnd`: every story with the id gets "passed" or "failed" and
   * the duration (undefined when the payload has none).
   */
  function OnStoryEnd(v: ClientView, payload: Option<Value>): ClientView {
    if DestructureThrows(payload) then v
    else
      var p := payload.value;
      var verdict := Str(if Truthy(Field(p, "passed")) then "passed" else "failed");
      var storyId := Field(p, "storyId");
      match Field(p, "duration")
      case Some(d) => v.(stories := MarkStories(v.stories, storyId, map["status" := verdict, "duration" := d], {}))
      case None => v.(stories := MarkStories(v.stories, storyId, map["status" := verdict], {"duration"}))
  }

  /** `handleOutput`: one line with the payload's text and type, the type defaulting to "default". */
  function OnOutput(v: ClientView, payload: Option<Value>): ClientView {
    if DestructureThrows(payload) then v
    else
      var kind := Field(payload.value, "type");
      AppendLine(v, Field(payload.value, "text"), if kind.Some? then kind.value else Str("default"))
  }

  /** `handleLoopComplete`: "complete" when `payload?.success` is truthy, "stopped" otherwise. */
  function OnLoopComplete(v: ClientView, payload: Option<Value>): ClientView {
    v.(status := Str(if Truthy(OptField(payload, "success")) then "complete" else "stopped"))
  }

  /** `handleError`: status "error" and a line "Error: <message>", the message defaulting to "Unknown error". */
  function OnError(v: ClientView, payload: Option<Value>): ClientView {
    var message := OptField(payload, "message");
    var text := "Error: " + (if Truthy(message) then JsString(message.value) else "Unknown error");
    AppendLine(v.(status := Str("error")), Some(Str(text)), Str("error"))
  }

  /** The fields of an object; a list item that is not an object is taken as an empty one. */
  function FieldsOf(v: Value): map<string, Value> {
    if v.Obj? then v.fields else map[]
  }

  /** `message.payload || []` as the story list. */
  function StoryList(payload: Option<Value>): seq<map<string, Value>> {
    if Truthy(payload) && payload.value.Arr? then
      var items := payload.value.items;
      seq(|items|, i requires 0 <= i < |items| => FieldsOf(items[i]))
    else []
  }

  /** `message.payload?.status || 'idle'`. */
  function StatusOf(payload: Option<Value>): Value {
    var status := OptField(payload, "status");
    if Truthy(status) then status.value else Str("idle")
  }

  /** The seven message types the hook handles. */
  const HandledTypes: set<string> := {"story_start", "story_end", "output", "loop_complete", "error", "stories", "status"}

  /**
   * `handleMessage(data)` while mounted: text that does not parse, a `null`
   * message (reading its `type` throws), a payload a handler cannot
   * destructure and an unknown type all leave the view as it was.
   */
  function Receive(v: ClientView, data: Incoming): (r: ClientView)
    ensures data.Unparsable? || data.message.Null? ==> r == v
    ensures data.Parsed? && !data.message.Null? && !Field(data.message, "type").Some? ==> r == v
    ensures AtMostOneLine(v, r)
  {
    match data
    case Unparsable => v
    case Parsed(message) =>
      if message.Null? then v
      else
        var kind := Field(message, "type");
        var payload := Field(message, "payload");
        if kind == Some(Str("story_start")) then OnStoryStart(v, payload)
        else if kind == Some(Str("story_end")) then OnStoryEnd(v, payload)
        else if kind == Some(Str("output")) then OnOutput(v, payload)
        else if kind == Some(Str("loop_complete")) then OnLoopComplete(v, payload)
        else if kind == Some(Str("error")) then OnError(v, payload)
        else if kind == Some(Str("stories")) then v.(stories := StoryList(payload))
        else if kind == Some(Str("status")) then v.(status := StatusOf(payload))
        else v
  }

  /** A handled message never breaks the order of output ids. */
  lemma ReceiveKeepsIdsIncreasing(v: ClientView, data: Incoming)
    requires IdsIncreasing(v)
    ensures IdsIncreasing(Receive(v, data))
  {
    var r := Receive(v, data);
    if r.output != v.output || r.nextId != v.nextId {
      assert r.output == v.output + [r.output[|v.output|]];
    }
  }

  /** A message whose `type` is none of the handled ones changes nothing. */
  lemma UnknownTypeIgnored(v: ClientView, message: Value)
    requires forall t :: t in HandledTypes ==> Field(message, "type") != Some(Str(t))
    ensures Receive(v, Parsed(message)) == v
  {
  }

  // ---------------------------------------------------------------------
  // What the server sends, as the dashboard parses it
  // ---------------------------------------------------------------------

  /** A story entry as JSON: `duration` null until the story has ended. */
  function EntryFields(e: Server.StoryEntry): map<string, Value> {
    map["id" := Str(e.id), "title" := Str(e.title), "status" := Str(e.status), "priority" := Num(e.priority),
        "duration" := if e.duration.Some? then Num(e.duration.value) else Null]
  }

  /** The story list as the dashboard holds it after a `stories` message. */
  function ClientEntries(entries: seq<Server.StoryEntry>): (r: seq<map<string, Value>>)
    ensures |r| == |entries|
  {
    seq(|entries|, i requires 0 <= i < |entries| => EntryFields(entries[i]))
  }

  /** `JSON.parse(JSON.stringify(message))` for each message the server broadcasts. */
  function Encode(m: Server.Message): Incoming {
    match m
    case StoriesMsg(entries) =>
      Parsed(Obj(map["type" := Str("stories"),
        "payload" := Arr(seq(|entries|, i requires 0 <= i < |entries| => Obj(EntryFields(entries[i]))))]))
    case StatusMsg(status) =>
      Parsed(Obj(map["type" := Str("status"), "payload" := Obj(map["status" := Str(status.Name())])]))
    case OutputMsg(text, kind) =>
      Parsed(Obj(map["type" := Str("output"), "payload" := Obj(map["text" := Str(text), "type" := Str(kind.Name())])]))
    case ClearedMsg =>
      Parsed(Obj(map["type" := Str("output"), "lines" := Arr([])]))
    case StoryStartMsg(storyId, title, iteration, attempt, remaining) =>
      Parsed(Obj(map["type" := Str("story_start"), "payload" := Obj(map["storyId" := Str(storyId), "title" := Str(title),
        "iteration" := Num(iteration), "attempt" := Num(attempt), "remaining" := Num(remaining)])]))
    case StoryEndMsg(storyId, passed, duration, completedCount, totalCount) =>
      Parsed(Obj(map["type" := Str("story_end"), "payload" := Obj(map["storyId" := Str(storyId), "passed" := Bool(passed),
        "duration" := Num(duration), "completedCount" := Num(completedCount), "totalCount" := Num(totalCount)])]))
    case LoopCompleteMsg(success, duration, completedCount, totalCount) =>
      Parsed(Obj(map["type" := Str("loop_complete"), "payload" := Obj(map["success" := Bool(success),
        "duration" := Num(duration), "completedCount" := Num(completedCount), "totalCount" := Num(totalCount)])]))
  }

  /** No two entries share an id. */
  predicate DistinctIds(entries: seq<Server.StoryEntry>) {
    forall i, j :: 0 <= i < j < |entries| ==> entries[i].id != entries[j].id
  }

  /**
   * The server's clear notice carries `lines` instead of `payload`, so the
   * dashboard's output handler cannot destructure it: the dashboard keeps
   * every line it had.
   */
  lemma ClearedLeavesViewUnchanged(v: ClientView)
    ensures Receive(v, Encode(Server.ClearedMsg)) == v
  {
  }

  /** A `stories` message replaces the dashboard's list with the server's entries. */
  lemma StoriesMirrored(v: ClientView, entries: seq<Server.StoryEntry>)
    ensures Receive(v, Encode(Server.StoriesMsg(entries))) == v.(stories := ClientEntries(entries))
  {
  }

  /** A `status` message sets the dashboard's status to the server's status name. */
  lemma StatusMirrored(v: ClientView, status: Server.RunStatus)
    ensures Receive(v, Encode(Server.StatusMsg(status))) == v.(status := Str(status.Name()))
  {
  }

  /** An `output` message adds the server's line, with its text and type, under the next id. */
  lemma OutputMirrored(v: ClientView, text: string, kind: Server.LineKind)
    ensures Receive(v, Encode(Server.OutputMsg(text, kind)))
      == v.(output := v.output + [ClientLine(v.nextId, Some(Str(text)), Str(kind.Name()))], nextId := v.nextId + 1)
  {
  }

  /** A `loop_complete` message leaves the dashboard with the status name the server itself moved to. */
  lemma LoopCompleteMirrored(v: ClientView, success: bool, duration: int, completedCount: nat, totalCount: nat)
    ensures Receive(v, Encode(Server.LoopCompleteMsg(success, duration, completedCount, totalCount)))
      == v.(status := Str((if success then Server.Complete else Server.Stopped).Name()))
  {
  }

  /** What a `story_start` message does: status "running", and the stories with the id marked "running". */
  lemma StoryStartReceived(v: ClientView, storyId: string, title: string, iteration: int, attempt: int, remaining: int)
    ensures Receive(v, Encode(Server.StoryStartMsg(storyId, title, iteration, attempt, remaining)))
      == v.(status := Str("running"), stories := MarkStories(v.stories, Some(Str(storyId)), map["status" := Str("running")], {}))
  {
  }

  /** What a `story_end` message does: the stories with the id get the verdict and the duration. */
  lemma StoryEndReceived(v: ClientView, storyId: string, passed: bool, duration: int, completedCount: nat, totalCount: nat)
    ensures Receive(v, Encode(Server.StoryEndMsg(storyId, passed, duration, completedCount, totalCount)))
      == v.(stories := MarkStories(v.stories, Some(Str(storyId)),
              map["status" := Str(if passed then "passed" else "failed"), "duration" := Num(duration)], {}))
  {
    var payload := map["storyId" := Str(storyId), "passed" := Bool(passed),
      "duration" := Num(duration), "completedCount" := Num(completedCount), "totalCount" := Num(totalCount)];
    var message := Obj(map["type" := Str("story_end"), "payload" := Obj(payload)]);
    assert Receive(v, Parsed(message)) == OnStoryEnd(v, Some(Obj(payload)));
    assert Field(Obj(payload), "duration") == Some(Num(duration));
    assert Field(Obj(payload), "storyId") == Some(Str(storyId));
    assert Truthy(Field(Obj(payload), "passed")) == passed;
  }

  /** Spreading a new status (and duration) over an entry's JSON gives the JSON of the updated entry. */
  lemma EntryUpdated(e: Server.StoryEntry, status: string, duration: Option<int>)
    ensures EntryFields(e) + map["status" := Str(status)] == EntryFields(e.(status := status))
    ensures duration.Some? ==>
      EntryFields(e) + map["status" := Str(status), "duration" := Num(duration.value)]
        == EntryFields(e.(status := status, duration := duration))
  {
  }

  /** With distinct ids, marking the dashboard's entries "running" matches the server's `Started`. */
  lemma StartedMirrored(entries: seq<Server.StoryEntry>, storyId: string)
    requires DistinctIds(entries)
    ensures MarkStories(ClientEntries(entries), Some(Str(storyId)), map["status" := Str("running")], {})
      == ClientEntries(Server.Started(entries, storyId))
  {
    var after := Server.Started(entries, storyId);
    var marked := MarkStories(ClientEntries(entries), Some(Str(storyId)), map["status" := Str("running")], {});
    Server.StoryMarksChangeFirstEntryOnly(entries, storyId, true, 0);
    forall i | 0 <= i < |entries|
      ensures marked[i] == ClientEntries(after)[i]
    {
      if entries[i].id == storyId {
        EntryUpdated(entries[i], "running", None);
      }
    }
  }

  /** With distinct ids, marking the dashboard's entries with a verdict matches the server's `Ended`. */
  lemma EndedMirrored(entries: seq<Server.StoryEntry>, storyId: string, passed: bool, duration: int)
    requires DistinctIds(entries)
    ensures MarkStories(ClientEntries(entries), Some(Str(storyId)),
              map["status" := Str(if passed then "passed" else "failed"), "duration" := Num(duration)], {})
      == ClientEntries(Server.Ended(entries, storyId, passed, duration))
  {
    var after := Server.Ended(entries, storyId, passed, duration);
    var verdict := if passed then "passed" else "failed";
    var marked := MarkStories(ClientEntries(entries), Some(Str(storyId)), map["status" := Str(verdict), "duration" := Num(duration)], {});
    Server.StoryMarksChangeFirstEntryOnly(entries, storyId, passed, duration);
    forall i | 0 <= i < |entries|
      ensures marked[i] == ClientEntries(after)[i]
    {
      if entries[i].id == storyId {
        EntryUpdated(entries[i], verdict, Some(duration));
      }
    }
  }

  /**
   * With distinct ids, a `story_start` message does to the dashboard's list
   * what `storyStart` did to the server's projection, and the status becomes
   * "running". (The dashboard marks every entry with the id, the server only
   * the first, so the two agree only when ids are distinct.)
   */
  lemma StoryStartMirrored(v: ClientView, entries: seq<Server.StoryEntry>, storyId: string, title: string,
                           iteration: int, attempt: int, remaining: int)
    requires DistinctIds(entries)
    ensures Receive(v.(stories := ClientEntries(entries)), Encode(Server.StoryStartMsg(storyId, title, iteration, attempt, remaining)))
      == v.(stories := ClientEntries(Server.Started(entries, storyId)), status := Str("running"))
  {
    StoryStartReceived(v.(stories := ClientEntries(entries)), storyId, title, iteration, attempt, remaining);
    StartedMirrored(entries, storyId);
  }

  /**
   * With distinct ids, a `story_end` message does to the dashboard's list what
   * `storyEnd` did to the server's projection: the story gets its verdict and
   * its duration.
   */
  lemma StoryEndMirrored(v: ClientView, entries: seq<Server.StoryEntry>, storyId: string, passed: bool,
                         duration: int, completedCount: nat, totalCount: nat)
    requires DistinctIds(entries)
    ensures Receive(v.(stories := ClientEntries(entries)), Encode(Server.StoryEndMsg(storyId, passed, duration, completedCount, totalCount)))
      == v.(stories := ClientEntries(Server.Ended(entries, storyId, passed, duration)))
  {
    StoryEndReceived(v.(stories := ClientEntries(entries)), storyId, passed, duration, completedCount, totalCount);
    EndedMirrored(entries, storyId, passed, duration);
  }

  // ---------------------------------------------------------------------
  // Reconnection backoff
  // ---------------------------------------------------------------------

  const InitialRetryDelay := 1000
  const MaxRetryDelay := 30000
  const BackoffMultiplier := 2

  /** `Math.min(delay * 2, 30000)`: the delay after one more scheduled retry. */
  function NextDelay(delay: int): (r: int)
    ensures r <= MaxRetryDelay
    ensures delay >= InitialRetryDelay ==> r >= InitialRetryDelay
  {
    if delay * BackoffMultiplier < MaxRetryDelay then delay * BackoffMultiplier else MaxRetryDelay
  }

  /** The retry delay after `k` retries scheduled since the last successful open. */
  function RetryDelayAfter(k: nat): int {
    if k == 0 then InitialRetryDelay else NextDelay(RetryDelayAfter(k - 1))
  }

  function Pow2(k: nat): (r: nat)
    ensures r >= 1
  {
    if k == 0 then 1 else 2 * Pow2(k - 1)
  }

  /**
   * The delays double from one second and stop at thirty: after `k` retries
   * the delay is min(1000 * 2^k, 30000), so the sixth and every later retry
   * waits thirty seconds.
   */
  lemma {:induction false} RetryDelayClosedForm(k: nat)
    ensures RetryDelayAfter(k) == if InitialRetryDelay * Pow2(k) < MaxRetryDelay then InitialRetryDelay * Pow2(k) else MaxRetryDelay
    ensures InitialRetryDelay <= RetryDelayAfter(k) <= MaxRetryDelay
    ensures k >= 5 ==> RetryDelayAfter(k) == MaxRetryDelay
  {
    if k > 0 {
      RetryDelayClosedForm(k - 1);
    }
    if k >= 5 {
      Pow2AtLeast(k);
    }
  }

  lemma {:induction false} Pow2AtLeast(k: nat)
    requires k >= 5
    ensures Pow2(k) >= 32
  {
    if k > 5 {
      Pow2AtLeast(k - 1);
    }
  }

  // ---------------------------------------------------------------------
  // The hook's refs and the events that drive them
  // ---------------------------------------------------------------------

  /** A WebSocket's `readyState`. */
  datatype ReadyState = Connecting | Open | Closing | Closed {
    /** Not yet asked to close. */
    predicate Live() {
      Connecting? || Open?
    }
  }

  /**
   * One mounted `useLoopSocket`: its view state and its refs. The methods
   * are the events that reach the hook: the socket's `open`, `close` and
   * `message` events, a retry timer firing, the unmount cleanup, and the
   * controls the dashboard calls. Whether `new WebSocket(url)` succeeds is
   * a parameter.
   */
  class SocketHook {
    /** The effect's `isMounted`. */
    var mounted: bool
    /** `cleaningUpRef`. */
    var cleaningUp: bool
    /** The `connected` state. */
    var connected: bool
    var view: ClientView
    /** The ready state of every socket the hook created, in creation order. */
    var sockets: seq<ReadyState>
    /** `wsRef`: the index of the current socket. */
    var socket: Option<nat>
    /** `retryDelayRef`. */
    var retryDelay: int
    /** `retryTimeoutRef`: the index of the last retry timer set, until cleanup. */
    var retryTimer: Option<nat>
    /** The delay of every retry timer set, in order. */
    var timers: seq<int>
    /** The retry timers set and neither cleared nor fired yet. */
    var pending: set<nat>
    /** The `type` of every message sent to the server. */
    var outbox: seq<string>
    /** The retries scheduled since the last successful open. */
    ghost var failures: nat

    /**
     * At most one retry is pending, and it is the one in `retryTimeoutRef`;
     * at most one socket is live, and it is the one in `wsRef`; the delay is
     * the backoff after the retries since the last open; after unmount no
     * timer is pending and no socket is held; line ids are in order.
     */
    ghost predicate Valid()
      reads this
    {
      (retryTimer.Some? ==> retryTimer.value < |timers|)
      && (forall t :: t in pending ==> retryTimer == Some(t))
      && (socket.Some? ==> socket.value < |sockets|)
      && (forall i :: 0 <= i < |sockets| && sockets[i].Live() ==> socket == Some(i))
      && retryDelay == RetryDelayAfter(failures)
      && (mounted ==> !cleaningUp)
      && (!mounted ==> cleaningUp && retryTimer.None? && pending == {} && socket.None?)
      && IdsIncreasing(view)
    }

    /** The hook's first render and its effect: initial state, then `connect()`. */
    constructor (created: bool)
      ensures Valid()
      ensures mounted && !connected && view == InitialView && outbox == []
      ensures created ==> sockets == [Connecting] && socket == Some(0) && timers == [] && retryDelay == InitialRetryDelay
      ensures !created ==>
        sockets == [] && socket == None && timers == [InitialRetryDelay] && pending == {0}
        && retryDelay == NextDelay(InitialRetryDelay)
    {
      mounted, cleaningUp, connected := true, false, false;
      view := InitialView;
      sockets, socket := [], None;
      retryDelay, retryTimer, timers, pending := InitialRetryDelay, None, [], {};
      outbox := [];
      failures := 0;
      new;
      Connect(created);
    }

    /** `ws.close()` on socket `ws`: a live socket starts closing; its `close` event comes later. */
    method CloseSocket(ws: nat)
      requires ws < |sockets|
      modifies this`sockets
      ensures sockets == old(sockets)[ws := if old(sockets[ws]).Live() then Closing else old(sockets[ws])]
    {
      if sockets[ws].Live() {
        sockets := sockets[ws := Closing];
      }
    }

    /**
     * `scheduleReconnect()`: unless cleaning up or unmounted, the pending
     * retry is replaced by one timer with the current delay, and the delay
     * doubles up to thirty seconds.
     */
    method ScheduleReconnect()
      requires Valid()
      modifies this`retryTimer, this`timers, this`pending, this`retryDelay, this`failures
      ensures Valid()
      ensures old(cleaningUp) || !mounted ==> unchanged(this)
      ensures !old(cleaningUp) && mounted ==>
        timers == old(timers) + [old(retryDelay)] && pending == {|old(timers)|} && retryTimer == Some(|old(timers)|)
        && retryDelay == NextDelay(old(retryDelay)) && failures == old(failures) + 1
    {
      if cleaningUp || !mounted {
        return;
      }
      if retryTimer.Some? {
        pending := pending - {retryTimer.value};
      }
      timers := timers + [retryDelay];
      retryTimer := Some(|timers| - 1);
      pending := pending + {|timers| - 1};
      retryDelay := NextDelay(retryDelay);
      failures := failures + 1;
    }

    /**
     * `connect()`: unless unmounted or cleaning up, the current socket is
     * closed (with the cleanup flag raised only while `close()` runs, so it is
     * down again when that socket's `close` event arrives) and a new socket
     * becomes current; when the constructor throws, a retry is scheduled.
     */
    method Connect(created: bool)
      requires Valid()
      modifies this`sockets, this`socket, this`retryTimer, this`timers, this`pending, this`retryDelay, this`failures
      ensures Valid()
      ensures !old(mounted) ==> unchanged(this)
      ensures old(mounted) ==> |sockets| == |old(sockets)| + (if created then 1 else 0)
      ensures old(mounted) ==> forall i :: 0 <= i < |old(sockets)| ==> !sockets[i].Live()
      ensures old(mounted) && created ==>
        sockets[|old(sockets)|] == Connecting && socket == Some(|old(sockets)|)
        && timers == old(timers) && pending == old(pending) && retryDelay == old(retryDelay)
      ensures old(mounted) && !created ==>
        socket == old(socket) && timers == old(timers) + [old(retryDelay)] && pending == {|old(timers)|}
        && retryDelay == NextDelay(old(retryDelay))
    {
      if !mounted || cleaningUp {
        return;
      }
      if socket.Some? {
        CloseSocket(socket.value);
      }
      if created {
        sockets := sockets + [Connecting];
        socket := Some(|sockets| - 1);
      } else {
        ScheduleReconnect();
      }
    }

    /**
     * The `open` event of socket `ws`: the hook is connected and the delay is
     * back to one second. The handler's other branch, closing a socket that
     * opens after unmount, never runs: cleanup leaves no socket connecting,
     * so an `open` event only arrives while mounted.
     */
    method OnOpen(ws: nat)
      requires Valid() && ws < |sockets|
      modifies this`sockets, this`connected, this`retryDelay, this`failures
      ensures Valid()
      ensures old(sockets[ws]) != Connecting ==> unchanged(this)
      ensures old(sockets[ws]) == Connecting ==>
        mounted && sockets == old(sockets)[ws := Open] && connected && retryDelay == InitialRetryDelay
    {
      if sockets[ws] != Connecting {
        return;
      }
      sockets := sockets[ws := Open];
      connected := true;
      retryDelay := InitialRetryDelay;
      failures := 0;
    }

    /**
     * The `close` event of socket `ws`: while mounted the hook is
     * disconnected and, unless cleaning up, a retry is scheduled.
     */
    method OnClose(ws: nat)
      requires Valid() && ws < |sockets|
      modifies this`sockets, this`connected, this`retryTimer, this`timers, this`pending, this`retryDelay, this`failures
      ensures Valid()
      ensures old(sockets[ws]) == Closed ==> unchanged(this)
      ensures old(sockets[ws]) != Closed ==> sockets == old(sockets)[ws := Closed]
      ensures old(sockets[ws]) != Closed && !mounted ==> connected == old(connected) && timers == old(timers)
      ensures old(sockets[ws]) != Closed && mounted ==>
        !connected && timers == old(timers) + [old(retryDelay)] && pending == {|old(timers)|}
    {
      if sockets[ws] == Closed {
        return;
      }
      sockets := sockets[ws := Closed];
      if !mounted {
        return;
      }
      connected := false;
      if !cleaningUp {
        ScheduleReconnect();
      }
    }

    /** A `message` event on socket `ws`: while mounted, the view takes the message in. */
    method OnMessage(ws: nat, data: Incoming)
      requires Valid() && ws < |sockets|
      modifies this`view
      ensures Valid()
      ensures view == if old(sockets[ws]) == Open && mounted then Receive(old(view), data) else old(view)
    {
      if sockets[ws] != Open {
        return;
      }
      if mounted {
        ReceiveKeepsIdsIncreasing(view, data);
        view := Receive(view, data);
      }
    }

    /** Retry timer `t` fires: if it is still pending, `connect()` runs while mounted and not cleaning up. */
    method FireRetry(t: nat, created: bool)
      requires Valid()
      modifies this`sockets, this`socket, this`retryTimer, this`timers, this`pending, this`retryDelay, this`failures
      ensures Valid()
      ensures t !in old(pending) ==> unchanged(this)
      ensures t in old(pending) && created ==> |sockets| == |old(sockets)| + 1 && socket == Some(|old(sockets)|)
      ensures t in old(pending) && !created ==> timers == old(timers) + [old(retryDelay)] && pending == {|old(timers)|}
    {
      if t !in pending {
        return;
      }
      pending := pending - {t};
      if mounted && !cleaningUp {
        Connect(created);
      }
    }

    /**
     * The effect's cleanup on unmount: the pending retry is cleared and the
     * current socket closed; from then on no event schedules or connects.
     */
    method Cleanup()
      requires Valid()
      modifies this`mounted, this`cleaningUp, this`retryTimer, this`pending, this`sockets, this`socket
      ensures Valid()
      ensures !mounted && cleaningUp && pending == {} && retryTimer == None && socket == None
      ensures forall i :: 0 <= i < |sockets| ==> !sockets[i].Live()
      ensures |sockets| == |old(sockets)|
    {
      mounted := false;
      cleaningUp := true;
      if retryTimer.Some? {
        pending := pending - {retryTimer.value};
        retryTimer := None;
      }
      if socket.Some? {
        CloseSocket(socket.value);
        socket := None;
      }
    }

    /** `send(type)`: the message goes out only when the current socket is open. */
    method Send(kind: string)
      requires Valid()
      modifies this`outbox
      ensures outbox == if socket.Some? && sockets[socket.value] == Open then old(outbox) + [kind] else old(outbox)
    {
      if socket.Some? && sockets[socket.value] == Open {
        outbox := outbox + [kind];
      }
    }

    /** `startLoop()`: asks the server to start, and shows "running" whether or not it was sent. */
    method StartLoop()
      requires Valid()
      modifies this`outbox, this`view
      ensures Valid()
      ensures view == old(view).(status := Str("running"))
      ensures outbox == if socket.Some? && sockets[socket.value] == Open then old(outbox) + ["start"] else old(outbox)
    {
      Send("start");
      view := view.(status := Str("running"));
    }

    /** `stopLoop()`: asks the server to stop, and shows "idle" whether or not it was sent. */
    method StopLoop()
      requires Valid()
      modifies this`outbox, this`view
      ensures Valid()
      ensures view == old(view).(status := Str("idle"))
      ensures outbox == if socket.Some? && sockets[socket.value] == Open then old(outbox) + ["stop"] else old(outbox)
    {
      Send("stop");
      view := view.(status := Str("idle"));
    }

    /** `clearOutput()`: no lines, and ids start again from 1. */
    method ClearOutput()
      requires Valid()
      modifies this`view
      ensures Valid()
      ensures view == old(view).(output := [], nextId := 1)
    {
      view := view.(output := [], nextId := 1);
    }
  }
}
