/**
 * The chat orchestrator: the conversation, the pending input and image, the
 * selected domain and the progress indicator, and the one transition that
 * sends a turn. The sidebar's recent list and the citation list are views of
 * the conversation.
 */
module App {
  import opened Wrappers
  import opened JsArray
  import opened JsString
  import opened Types
  import opened GeminiService

  const ErrorText: string :=
    "Error connecting to the diagnostic core. Please ensure your API key is valid and try again."
  const InitialStatus: string := "Initializing diagnostic sequence..."
  const StatusUpdates: seq<string> := [
    "Scanning knowledge base...",
    "Analyzing visual telemetry...",
    "Cross-referencing technical manuals...",
    "Simulating failure scenarios...",
    "Formulating remediation steps..."
  ]
  const ImageScanLabel: string := "Image Scan"
  const RecentCount: nat := 5

  /** The progress indicator when no request is outstanding. */
  const Idle: DiagnosticState := DiagnosticState(false, 0, "")

  /** The ids and timestamps the clock supplies for the two messages of a turn. */
  datatype TurnClock = TurnClock(userId: string, userTime: int, replyId: string, replyTime: int)

  /** The state the turn reaches while it waits for the model. */
  datatype Snapshot = Snapshot(messages: seq<Message>, input: string, image: Option<string>,
                               diagnostic: DiagnosticState)

  /** The guard: there is text other than white space, or an image. */
  predicate CanSend(input: string, image: Option<string>) {
    !AllWhitespace(input) || Truthy(image)
  }

  /** The guard is the application's test `input.trim() || image`: trimming leaves text, or there is an image. */
  lemma CanSendIff(input: string, image: Option<string>)
    ensures CanSend(input, image) <==> Trim(input) != "" || Truthy(image)
  {
    TrimEmpty(input);
  }

  /** `image || undefined`. */
  function Attachment(image: Option<string>): (a: Option<string>)
    ensures a.Some? <==> Truthy(image)
    ensures a.Some? ==> a == image
  {
    if Truthy(image) then image else None
  }

  /** The user's message: the input as typed, untrimmed, with the pending image. */
  function UserMessage(input: string, image: Option<string>, clock: TurnClock): (m: Message)
    ensures m.role == User && m.content == input && m.image == Attachment(image)
    ensures m.groundingLinks == None
  {
    Message(clock.userId, User, input, clock.userTime, Attachment(image), None)
  }

  /** The assistant's message: the reply and its citations, or the fixed error text and none. */
  function ReplyMessage(r: Result<Reply, string>, clock: TurnClock): (m: Message)
    ensures m.role == Assistant && m.image == None
    ensures r.Success? ==> m.content == r.value.text && m.groundingLinks == Some(r.value.groundingLinks)
    ensures r.Failure? ==> m.content == ErrorText && m.groundingLinks == None
  {
    match r
    case Success(reply) => Message(clock.replyId, Assistant, reply.text, clock.replyTime, None, Some(reply.groundingLinks))
    case Failure(_) => Message(clock.replyId, Assistant, ErrorText, clock.replyTime, None, None)
  }

  /** What the `i`-th scheduled status update writes: its text and `(i + 1) * 20`, other fields kept. */
  function ScheduledUpdate(prev: DiagnosticState, i: nat): (d: DiagnosticState)
    requires i < |StatusUpdates|
    ensures d.progress == (i + 1) * 20 && 20 <= d.progress <= 100
    ensures d.isAnalyzing == prev.isAnalyzing && d.status == StatusUpdates[i]
  {
    prev.(status := StatusUpdates[i], progress := (i + 1) * 20)
  }

  /** Later updates write more progress; the last one writes 100. */
  lemma ScheduledProgressRises(prev: DiagnosticState, i: nat, j: nat)
    requires i < j < |StatusUpdates|
    ensures ScheduledUpdate(prev, i).progress < ScheduledUpdate(prev, j).progress
    ensures ScheduledUpdate(prev, |StatusUpdates| - 1).progress == 100
  {
  }

  /** An update that fires after the turn ended does not bring the indicator back. */
  lemma LateUpdateStaysIdle(i: nat)
    requires i < |StatusUpdates|
    ensures !ScheduledUpdate(Idle, i).isAnalyzing
  {
  }

  // ---------------------------------------------------------------------
  // Views of the conversation

  predicate IsUserMessage(m: Message) {
    m.role == User
  }

  /** How the sidebar names a message: its text, or "Image Scan" when it has none. */
  function SidebarLabel(m: Message): (name: string)
    ensures name != ""
    ensures m.content != "" ==> name == m.content
    ensures m.content == "" ==> name == ImageScanLabel
  {
    if m.content != "" then m.content else ImageScanLabel
  }

  /** The labels of the last five user messages, in conversation order. */
  function RecentUserLabels(messages: seq<Message>): (labels: seq<string>)
    ensures |labels| <= RecentCount
  {
    var recent := SliceLast(Filter(messages, IsUserMessage), RecentCount);
    seq(|recent|, i requires 0 <= i < |recent| => SidebarLabel(recent[i]))
  }

  /** The sidebar's history panel: a placeholder for an empty conversation, else the recent labels. */
  datatype SidebarView = NoHistory | Recent(labels: seq<string>)

  function Sidebar(messages: seq<Message>): (v: SidebarView)
    ensures v.NoHistory? <==> messages == []
  {
    if |messages| == 0 then NoHistory else Recent(RecentUserLabels(messages))
  }

  /**
   * The sidebar lists `min(5, n)` labels for `n` user messages: the labels of
   * the last of them, in conversation order (all of them when there are at most five).
   */
  lemma RecentUserLabelsCount(messages: seq<Message>)
    ensures var users := Filter(messages, IsUserMessage);
      var labels := RecentUserLabels(messages);
      && |labels| == (if |users| < RecentCount then |users| else RecentCount)
      && (forall i :: 0 <= i < |labels| ==> labels[i] == SidebarLabel(users[|users| - |labels| + i]))
      && (|users| <= RecentCount ==> forall i :: 0 <= i < |users| ==> labels[i] == SidebarLabel(users[i]))
  {
    var users := Filter(messages, IsUserMessage);
    var recent := SliceLast(users, RecentCount);
    assert users == users[..|users| - |recent|] + recent;
  }

  /** After a turn (user message, then assistant message), the sidebar ends with the new user message. */
  lemma SidebarAfterTurn(messages: seq<Message>, user: Message, reply: Message)
    requires user.role == User && reply.role == Assistant
    ensures var labels := RecentUserLabels(messages + [user, reply]);
      |labels| >= 1 && labels[|labels| - 1] == SidebarLabel(user)
  {
    UserFilterAfterTurn(messages, user, reply);
    RecentUserLabelsCount(messages + [user, reply]);
  }

  /** The user messages after a turn are those before it, then the new one. */
  lemma UserFilterAfterTurn(messages: seq<Message>, user: Message, reply: Message)
    requires user.role == User && reply.role == Assistant
    ensures Filter(messages + [user, reply], IsUserMessage) == Filter(messages, IsUserMessage) + [user]
  {
    assert messages + [user, reply] == (messages + [user]) + [reply];
    FilterConcat(messages + [user], [reply], IsUserMessage);
    FilterConcat(messages, [user], IsUserMessage);
    FilterSingle(user, IsUserMessage);
    FilterSingle(reply, IsUserMessage);
  }

  /** Assistant messages do not change the sidebar's list. */
  lemma SidebarIgnoresAssistant(messages: seq<Message>, reply: Message)
    requires reply.role == Assistant
    ensures RecentUserLabels(messages + [reply]) == RecentUserLabels(messages)
  {
    FilterConcat(messages, [reply], IsUserMessage);
    FilterSingle(reply, IsUserMessage);
    assert Filter(messages + [reply], IsUserMessage) == Filter(messages, IsUserMessage);
  }

  /** The citations drawn for a list of chunks: the `web` part of each chunk that has one, in order. */
  function WebSources(links: seq<GroundingChunk>): (sources: seq<WebSource>)
    ensures |sources| <= |links|
    ensures forall i :: 0 <= i < |sources| ==> GroundingChunk(Some(sources[i])) in links
    ensures forall i :: 0 <= i < |links| && links[i].web.Some? ==> links[i].web.value in sources
  {
    if links == [] then []
    else (if links[0].web.Some? then [links[0].web.value] else []) + WebSources(links[1..])
  }

  /** One citation draws its `web` part when it has one, and nothing otherwise. */
  lemma WebSourcesSingle(c: GroundingChunk)
    ensures WebSources([c]) == if c.web.Some? then [c.web.value] else []
  {
    assert [c][1..] == [];
  }

  /** The citations of a concatenation are drawn part by part, in order. */
  lemma {:induction false} WebSourcesConcat(a: seq<GroundingChunk>, b: seq<GroundingChunk>)
    ensures WebSources(a + b) == WebSources(a) + WebSources(b)
  {
    if a == [] {
      assert a + b == b;
    } else {
      assert (a + b)[0] == a[0];
      assert (a + b)[1..] == a[1..] + b;
      WebSourcesConcat(a[1..], b);
    }
  }

  /** The citation panel of a message: shown when it has a non-empty link list, with the drawable links. */
  function CitationPanel(m: Message): (panel: Option<seq<WebSource>>)
    ensures panel.Some? <==> m.groundingLinks.Some? && m.groundingLinks.value != []
  {
    if m.groundingLinks.Some? && |m.groundingLinks.value| > 0 then Some(WebSources(m.groundingLinks.value))
    else None
  }

  /** The fixed error message has no citation panel. */
  lemma ErrorHasNoCitations(e: string, clock: TurnClock)
    ensures CitationPanel(ReplyMessage(Failure(e), clock)) == None
  {
  }

  // ---------------------------------------------------------------------
  // The state and its transitions

  class ChatApp {
    var messages: seq<Message>
    var input: string
    var image: Option<string>
    var category: Category
    var diagnostic: DiagnosticState
    /** The client, once it has been constructed. */
    var service: Option<Service>

    /** The initial state: empty conversation, no input or image, hardware domain, idle. */
    constructor (service: Option<Service>)
      ensures messages == [] && input == "" && image == None
      ensures category == Hardware && diagnostic == Idle && this.service == service
    {
      messages := [];
      input := "";
      image := None;
      category := Hardware;
      diagnostic := Idle;
      this.service := service;
    }

    /**
     * Sends one turn. Refused (nothing changes) when the guard fails or there is
     * no client. Otherwise: the user message is appended, input and image are
     * cleared, the indicator enters its analyzing state (`waiting`), the client
     * is called with the history from before the turn (`sent`), one assistant
     * message is appended, and the indicator returns to idle.
     */
    method HandleSend(transport: Request -> CallOutcome, clock: TurnClock)
      returns (ghost sent: Option<Request>, ghost waiting: Option<Snapshot>)
      modifies this
      ensures category == old(category) && service == old(service)
      ensures !(CanSend(old(input), old(image)) && old(service).Some?) ==>
        && sent == None && waiting == None
        && messages == old(messages) && input == old(input) && image == old(image)
        && diagnostic == old(diagnostic)
      ensures CanSend(old(input), old(image)) && old(service).Some? ==>
        && sent.Some?
        && RequestFor(sent.value, old(messages), old(input), Attachment(old(image)), Some(old(category).Name()))
        && waiting == Some(Snapshot(old(messages) + [UserMessage(old(input), old(image), clock)], "", None,
                                    DiagnosticState(true, 0, InitialStatus)))
        && messages == old(messages) + [UserMessage(old(input), old(image), clock),
                                        ReplyMessage(Normalise(transport(sent.value)), clock)]
        && input == "" && image == None && diagnostic == Idle
    {
      if !CanSend(input, image) || service.None? {
        sent, waiting := None, None;
        return;
      }
      var userMsg := UserMessage(input, image, clock);
      var history := messages;
      messages := messages + [userMsg];
      input := "";
      image := None;
      diagnostic := DiagnosticState(true, 0, InitialStatus);
      waiting := Some(Snapshot(messages, input, image, diagnostic));
      var reply;
      var req;
      reply, req := Troubleshoot(service.value, history, userMsg.content, userMsg.image,
                                 Some(category.Name()), transport);
      sent := Some(req);
      messages := messages + [ReplyMessage(reply, clock)];
      diagnostic := Idle;
    }

    /** One scheduled status update firing; it may fire after the turn has ended. */
    method FireStatusUpdate(i: nat)
      requires i < |StatusUpdates|
      modifies this`diagnostic
      ensures diagnostic == ScheduledUpdate(old(diagnostic), i)
    {
      diagnostic := ScheduledUpdate(diagnostic, i);
    }

    /** "Clear Console": the conversation is emptied, nothing else changes. */
    method ClearConsole()
      modifies this`messages
      ensures messages == []
    {
      messages := [];
    }
  }
}
