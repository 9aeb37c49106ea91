/** The AI assistant panel (src/components/AIPanel.tsx): which thread a
    conversation belongs to, when a send is refused, what is sent to the
    provider, how the reply becomes the assistant message, and the quick
    actions that prefill the input. */
module AIPanel {
  import opened Types
  import opened Strings
  import StoreModel
  import Store

  function Min(a: int, b: int): int
  {
    if a <= b then a else b
  }

  // ------------------------------------------------------------ AI_CONFIG

  /** The proxied endpoint of each provider. */
  function Endpoint(p: Provider): (e: string)
    ensures e == "/api/" + ProviderName(p)
  {
    match p
    case MiniMax => "/api/minimax"
    case Kimi => "/api/kimi"
    case Glm => "/api/glm"
  }

  /** The model each provider is asked for. */
  function ModelName(p: Provider): string
  {
    match p
    case MiniMax => "abab6.5s-chat"
    case Kimi => "moonshot-v1-8k"
    case Glm => "glm-4-flash"
  }

  /** The name the missing-key error shows. */
  function ProviderLabel(p: Provider): string
  {
    match p
    case MiniMax => "MiniMax"
    case Kimi => "Kimi"
    case Glm => "GLM"
  }

  /** Every provider has its own endpoint, model and label. */
  lemma ProviderTableDistinct(p: Provider, q: Provider)
    requires p != q
    ensures Endpoint(p) != Endpoint(q)
    ensures ModelName(p) != ModelName(q)
    ensures ProviderLabel(p) != ProviderLabel(q)
  {
  }

  // ---------------------------------------------------- thread and mode

  /** Where a conversation's messages go. */
  datatype Target = GlobalThread | NoteThread(noteId: string)

  /** `isGlobalMode = !selectedNoteId`: global exactly when nothing (or
      the empty string) is selected. */
  function TargetOf(selectedNoteId: Option<string>): (t: Target)
    ensures t == GlobalThread <==> !Truthy(selectedNoteId)
    ensures t.NoteThread? ==> selectedNoteId == Some(t.noteId)
  {
    if Truthy(selectedNoteId) then NoteThread(selectedNoteId.value) else GlobalThread
  }

  /** Index of the first note carrying `id`, or `|notes|` when none does. */
  function FirstMatch(notes: seq<Note>, id: string): (i: nat)
    ensures i <= |notes|
    ensures forall j :: 0 <= j < i ==> notes[j].id != id
    ensures i < |notes| ==> notes[i].id == id
  {
    if notes == [] then 0
    else if notes[0].id == id then 0
    else 1 + FirstMatch(notes[1..], id)
  }

  /** `notes.find(n => n.id === selectedNoteId)`; a null selection matches
      no note. */
  function FindNote(notes: seq<Note>, selected: Option<string>): (r: Option<Note>)
    ensures r.Some? ==> r.value in notes && selected == Some(r.value.id)
    ensures r.None? <==> selected.None? || forall n :: n in notes ==> n.id != selected.value
  {
    if selected.None? then None
    else
      var i := FirstMatch(notes, selected.value);
      if i < |notes| then Some(notes[i]) else None
  }

  /** The first match depends only on the ids, in order. */
  lemma FirstMatchSameIds(a: seq<Note>, b: seq<Note>, id: string)
    requires |a| == |b|
    requires forall i :: 0 <= i < |a| ==> a[i].id == b[i].id
    ensures FirstMatch(a, id) == FirstMatch(b, id)
  {
  }

  /** The messages of the thread `t` names: the global thread, or the
      thread of the first note carrying the id (empty when there is none). */
  function ThreadOf(s: StoreModel.StoreState, t: Target): seq<AIMessage>
  {
    match t
    case GlobalThread => s.globalAIMessages
    case NoteThread(id) =>
      match FindNote(s.notes, Some(id))
      case Some(n) => n.aiMessages
      case None => []
  }

  /** Does the thread `t` names exist? */
  predicate Reachable(s: StoreModel.StoreState, t: Target)
  {
    t.GlobalThread? || FindNote(s.notes, Some(t.noteId)).Some?
  }

  /** `aiMessages`, the thread the panel shows (lines 31-33). */
  function RenderedThread(s: StoreModel.StoreState): seq<AIMessage>
  {
    if Truthy(s.selectedNoteId) then
      match FindNote(s.notes, s.selectedNoteId)
      case Some(n) => n.aiMessages
      case None => []
    else s.globalAIMessages
  }

  /** The thread on screen is the thread sends go to. */
  lemma RenderedThreadIsTargetThread(s: StoreModel.StoreState)
    ensures RenderedThread(s) == ThreadOf(s, TargetOf(s.selectedNoteId))
  {
  }

  /** Appends one message to the thread `t` names. */
  function Post(s: StoreModel.StoreState, t: Target, role: Role, content: string, msgId: string, now: int): StoreModel.StoreState
  {
    match t
    case GlobalThread => StoreModel.AddGlobalAIMessage(s, role, content, msgId, now)
    case NoteThread(id) => StoreModel.AddAIMessage(s, id, role, content, msgId, now)
  }

  /** Posting adds exactly the one message at the end of the target thread
      when that thread exists, and leaves the selection, the folders, the
      config and the panel flags alone. */
  lemma PostAppendsOne(s: StoreModel.StoreState, t: Target, role: Role, content: string, msgId: string, now: int)
    requires Reachable(s, t)
    ensures var r := Post(s, t, role, content, msgId, now);
      && ThreadOf(r, t) == ThreadOf(s, t) + [AIMessage(msgId, role, content, now)]
      && r.(notes := s.notes, globalAIMessages := s.globalAIMessages) == s
  {
    var r := Post(s, t, role, content, msgId, now);
    if t.NoteThread? {
      StoreModel.AddAIMessageIsolated(s, t.noteId, role, content, msgId, now);
      FirstMatchSameIds(s.notes, r.notes, t.noteId);
    }
  }

  /** Posting to a note that no longer exists changes nothing. */
  lemma PostToMissingNote(s: StoreModel.StoreState, id: string, role: Role, content: string, msgId: string, now: int)
    requires !Reachable(s, NoteThread(id))
    ensures Post(s, NoteThread(id), role, content, msgId, now) == s
  {
    var r := Post(s, NoteThread(id), role, content, msgId, now);
    StoreModel.AddAIMessageIsolated(s, id, role, content, msgId, now);
    assert r.notes == s.notes;
  }

  /** Delivery follows the captured target, not the current selection:
      changing the selection before the reply arrives changes nothing
      about where it lands. */
  lemma PostIgnoresSelection(s: StoreModel.StoreState, sel: Option<string>, t: Target, role: Role, content: string, msgId: string, now: int)
    ensures Post(s.(selectedNoteId := sel), t, role, content, msgId, now)
         == Post(s, t, role, content, msgId, now).(selectedNoteId := sel)
  {
  }

  // ----------------------------------------------------- outbound turns

  const GlobalSystemPrompt := "你是一个智能AI助手，擅长回答各种问题、帮助用户解决问题。请用中文回复。"
  const NoteSystemPrompt := "你是一个智能笔记助手，擅长帮助用户写作、润色文章、回答问题。请用中文回复。"

  /** How many thread messages go with a request (`slice(-10)`). */
  const HistoryWindow := 10

  datatype WireRole = SystemRole | UserRole | AssistantRole
  datatype WireMessage = WireMessage(role: WireRole, content: string)

  function ToWire(m: AIMessage): WireMessage
  {
    WireMessage(if m.role == User then UserRole else AssistantRole, m.content)
  }

  /** The last user turn: the note's content in front of the question
      when the selected note has any. */
  function FinalUserContent(note: Option<Note>, text: string): string
  {
    if note.Some? && note.value.content != "" then
      "当前笔记内容：\n" + note.value.content + "\n\n用户问题：" + text
    else text
  }

  /** System prompt, the trailing window of the thread, the user turn. */
  function OutboundMessages(isGlobal: bool, thread: seq<AIMessage>, note: Option<Note>, text: string): (msgs: seq<WireMessage>)
    ensures |msgs| == 2 + Min(|thread|, HistoryWindow)
  {
    var window := thread[|thread| - Min(|thread|, HistoryWindow)..];
    [WireMessage(SystemRole, if isGlobal then GlobalSystemPrompt else NoteSystemPrompt)]
    + seq(|window|, i requires 0 <= i < |window| => ToWire(window[i]))
    + [WireMessage(UserRole, FinalUserContent(note, text))]
  }

  /** The outbound list, entry by entry: the mode's system prompt, then the
      last `min(n, 10)` thread messages in order as role and content, then
      the user turn; no stored message ever becomes a system turn. */
  lemma OutboundShape(isGlobal: bool, thread: seq<AIMessage>, note: Option<Note>, text: string)
    ensures var msgs := OutboundMessages(isGlobal, thread, note, text);
      var k := Min(|thread|, HistoryWindow);
      && msgs[0] == WireMessage(SystemRole, if isGlobal then GlobalSystemPrompt else NoteSystemPrompt)
      && (forall i :: 1 <= i <= k ==>
            && msgs[i].content == thread[|thread| - k + i - 1].content
            && (msgs[i].role == UserRole <==> thread[|thread| - k + i - 1].role == User)
            && msgs[i].role != SystemRole)
      && msgs[1 + k] == WireMessage(UserRole, FinalUserContent(note, text))
  {
    var msgs := OutboundMessages(isGlobal, thread, note, text);
    var k := Min(|thread|, HistoryWindow);
    var window := thread[|thread| - k..];
    var turns := seq(|window|, i requires 0 <= i < |window| => ToWire(window[i]));
    var head := WireMessage(SystemRole, if isGlobal then GlobalSystemPrompt else NoteSystemPrompt);
    var last := WireMessage(UserRole, FinalUserContent(note, text));
    FramedIndex(head, turns, last);
    forall i | 1 <= i <= k
      ensures msgs[i] == ToWire(thread[|thread| - k + i - 1])
    {
      assert window[i - 1] == thread[|thread| - k + i - 1];
    }
  }

  /** Indexing into `[a] + m + [b]`. */
  lemma FramedIndex<T>(a: T, m: seq<T>, b: T)
    ensures var s := [a] + m + [b];
      && |s| == |m| + 2 && s[0] == a && s[|m| + 1] == b
      && forall i :: 1 <= i <= |m| ==> s[i] == m[i - 1]
  {
  }

  /** A thread of fifteen contributes only its last ten messages. */
  lemma OutboundDropsOldest(isGlobal: bool, thread: seq<AIMessage>, note: Option<Note>, text: string)
    requires |thread| == 15
    ensures var msgs := OutboundMessages(isGlobal, thread, note, text);
      |msgs| == 12 && msgs[1].content == thread[5].content && msgs[10].content == thread[14].content
  {
    OutboundShape(isGlobal, thread, note, text);
  }

  /** The note content is prefixed exactly when the selected note has any. */
  lemma FinalUserContentCases(note: Option<Note>, text: string)
    ensures note.Some? && note.value.content != "" ==>
      FinalUserContent(note, text) == "当前笔记内容：\n" + note.value.content + "\n\n用户问题：" + text
    ensures note.None? || note.value.content == "" ==> FinalUserContent(note, text) == text
    ensures var c := FinalUserContent(note, text); |text| <= |c| && c[|c| - |text|..] == text
  {
  }

  // ----------------------------------------------------- request envelope

  /** `requestBody`: `model` and `messages`, plus `temperature` for the
      providers other than MiniMax. */
  datatype RequestBody = RequestBody(model: string, messages: seq<WireMessage>, temperature: Option<real>)

  function BuildRequestBody(p: Provider, messages: seq<WireMessage>): (b: RequestBody)
    ensures b.model == ModelName(p) && b.messages == messages
    ensures b.temperature.Some? <==> p != MiniMax
    ensures b.temperature.Some? ==> b.temperature.value == 0.7
  {
    match p
    case MiniMax => RequestBody(ModelName(p), messages, None)
    case Kimi => RequestBody(ModelName(p), messages, Some(0.7))
    case Glm => RequestBody(ModelName(p), messages, Some(0.7))
  }

  /** What `fetch` is given: the endpoint, the bearer token, the body. */
  datatype Request = Request(endpoint: string, authorization: string, body: RequestBody)

  /** The request built from the render-time state `s` for the trimmed
      question `text`. */
  function BuildRequest(s: StoreModel.StoreState, text: string): Request
  {
    var p := s.config.aiProvider;
    var msgs := OutboundMessages(!Truthy(s.selectedNoteId), RenderedThread(s),
                                 FindNote(s.notes, s.selectedNoteId), text);
    Request(Endpoint(p), "Bearer " + s.config.aiApiKey, BuildRequestBody(p, msgs))
  }

  // ------------------------------------------------------------ send plan

  /** The three ways `handleSend` can go before the request is awaited. */
  datatype SendPlan =
    | Ignored
    | NeedsKey(error: string)
    | Dispatch(target: Target, userText: string, request: Request)

  function MissingKeyError(p: Provider): string
  {
    "请先在设置中配置 " + ProviderLabel(p) + " API Key"
  }

  /** Blank input is dropped; a missing key is reported; otherwise the
      trimmed input goes to the captured target and out to the provider. */
  function PlanSend(s: StoreModel.StoreState, input: string): SendPlan
  {
    var text := Trim(input);
    if text == [] then Ignored
    else if s.config.aiApiKey == "" then NeedsKey(MissingKeyError(s.config.aiProvider))
    else Dispatch(TargetOf(s.selectedNoteId), text, BuildRequest(s, text))
  }

  /** A send is ignored exactly when the input is all whitespace. */
  lemma PlanSendIgnoresBlank(s: StoreModel.StoreState, input: string)
    ensures PlanSend(s, input) == Ignored <==> forall k :: 0 <= k < |input| ==> IsWhitespace(input[k])
  {
    TrimEmptyIffBlank(input);
  }

  /** A non-blank send without an API key is refused with an error that
      names the configured provider. */
  lemma PlanSendNeedsKey(s: StoreModel.StoreState, input: string)
    ensures PlanSend(s, input).NeedsKey? <==>
      (exists k :: 0 <= k < |input| && !IsWhitespace(input[k])) && s.config.aiApiKey == ""
    ensures PlanSend(s, input).NeedsKey? ==>
      PlanSend(s, input).error == "请先在设置中配置 " + ProviderLabel(s.config.aiProvider) + " API Key"
  {
    TrimEmptyIffBlank(input);
  }

  /** A dispatched send: the trimmed input, the target of the selection at
      send time, the provider's endpoint and model, the bearer key, and
      the outbound turns built from the thread as it was rendered, before
      the user message was appended. */
  lemma PlanSendDispatch(s: StoreModel.StoreState, input: string)
    ensures PlanSend(s, input).Dispatch? <==>
      (exists k :: 0 <= k < |input| && !IsWhitespace(input[k])) && s.config.aiApiKey != ""
    ensures PlanSend(s, input).Dispatch? ==>
      var d := PlanSend(s, input);
      var p := s.config.aiProvider;
      && d.userText == Trim(input) && d.userText != []
      && d.target == TargetOf(s.selectedNoteId)
      && d.request.endpoint == "/api/" + ProviderName(p)
      && d.request.authorization == "Bearer " + s.config.aiApiKey
      && d.request.body.model == ModelName(p)
      && (d.request.body.temperature.Some? <==> p != MiniMax)
      && d.request.body.messages
         == OutboundMessages(d.target == GlobalThread, ThreadOf(s, d.target),
                             FindNote(s.notes, s.selectedNoteId), d.userText)
  {
    TrimEmptyIffBlank(input);
  }

  /** With nothing selected the question goes out as typed (trimmed), after
      the global prompt and the tail of the global thread. */
  lemma GlobalSendIsPlain(s: StoreModel.StoreState, input: string)
    requires s.selectedNoteId.None?
    requires PlanSend(s, input).Dispatch?
    ensures var msgs := PlanSend(s, input).request.body.messages;
      && msgs[0].content == GlobalSystemPrompt
      && msgs[|msgs| - 1] == WireMessage(UserRole, Trim(input))
      && |msgs| == 2 + Min(|s.globalAIMessages|, HistoryWindow)
  {
    OutboundShape(true, s.globalAIMessages, None, Trim(input));
  }

  // ---------------------------------------------------------------- reply

  /** The parts of the parsed response the classification looks at:
      `choices[0].message.content`, `base_resp.status_msg`, `msg`, and the
      serialised response (`JSON.stringify(data)`). */
  datatype ApiResponse = ApiResponse(choiceContent: Option<string>, statusMsg: Option<string>, msg: Option<string>, serialized: string)

  /** What the awaited part ends in: a parsed response, or a thrown value
      (with its `message` when it is an `Error`). */
  datatype Outcome = Received(data: ApiResponse) | Thrown(errorMessage: Option<string>)

  const FormatErrorPrefix := "抱歉，API 返回格式异常。请检查 API Key 是否正确。响应: "
  const DumpLimit := 200

  /** The catch path: the prefix, then the error's message, or a hint
      when what was thrown is not an `Error`. */
  const FailurePrefix := "请求失败: "
  const FailureHint := "请检查网络连接和 API Key 配置"

  /** The text of the one assistant message a send ends with. */
  function ReplyText(o: Outcome): string
  {
    match o
    case Thrown(m) => FailurePrefix + (if m.Some? then m.value else FailureHint)
    case Received(d) =>
      if Truthy(d.choiceContent) then d.choiceContent.value
      else if Truthy(d.statusMsg) then "API 错误: " + d.statusMsg.value
      else if Truthy(d.msg) then d.msg.value
      else FormatErrorPrefix + d.serialized[..Min(DumpLimit, |d.serialized|)]
  }

  /** The assistant message is never empty. */
  lemma ReplyTextNonEmpty(o: Outcome)
    ensures ReplyText(o) != ""
  {
    match o
    case Thrown(m) =>
      assert ReplyText(o)[0] == '请';
    case Received(d) =>
      if !Truthy(d.choiceContent) && !Truthy(d.statusMsg) && !Truthy(d.msg) {
        assert ReplyText(o)[0] == FormatErrorPrefix[0];
      } else if !Truthy(d.choiceContent) && Truthy(d.statusMsg) {
        assert ReplyText(o)[0] == 'A';
      }
  }

  /** A failed request posts the prefix followed by exactly the thrown
      error's own message, or the hint when there is none. */
  lemma ReplyFailureText(m: Option<string>)
    ensures var r := ReplyText(Thrown(m));
      && FailurePrefix <= r
      && (m.Some? ==> r[|FailurePrefix|..] == m.value)
      && (m.None? ==> r[|FailurePrefix|..] == FailureHint)
  {
  }

  /** Priority: a present choice wins over everything else; a status
      message wins over `msg` and the dump; `msg` wins over the dump. The
      lower-ranked fields do not matter once a higher one is present. */
  lemma ReplyPriority(d: ApiResponse, e: ApiResponse)
    ensures Truthy(d.choiceContent) && e.choiceContent == d.choiceContent ==>
      ReplyText(Received(d)) == ReplyText(Received(e)) == d.choiceContent.value
    ensures !Truthy(d.choiceContent) && Truthy(d.statusMsg) && !Truthy(e.choiceContent) && e.statusMsg == d.statusMsg ==>
      ReplyText(Received(d)) == ReplyText(Received(e)) == "API 错误: " + d.statusMsg.value
    ensures (&& !Truthy(d.choiceContent) && !Truthy(d.statusMsg) && Truthy(d.msg)
             && !Truthy(e.choiceContent) && !Truthy(e.statusMsg) && e.msg == d.msg) ==>
      ReplyText(Received(d)) == ReplyText(Received(e)) == d.msg.value
  {
  }

  /** With none of the three fields set, the reply is the diagnostic
      prefix followed by the first `min(200, n)` characters of the
      serialised response. */
  lemma ReplyDiagnosticBounded(d: ApiResponse)
    requires !Truthy(d.choiceContent) && !Truthy(d.statusMsg) && !Truthy(d.msg)
    ensures var r := ReplyText(Received(d));
      && FormatErrorPrefix <= r
      && |r| == |FormatErrorPrefix| + Min(DumpLimit, |d.serialized|)
      && r[|FormatErrorPrefix|..] <= d.serialized
      && (|d.serialized| <= DumpLimit ==> r == FormatErrorPrefix + d.serialized)
  {
  }

  /** Posting keeps the target thread reachable. */
  lemma PostKeepsReachable(s: StoreModel.StoreState, t: Target, role: Role, content: string, msgId: string, now: int)
    requires Reachable(s, t)
    ensures Reachable(Post(s, t, role, content, msgId, now), t)
  {
    if t.NoteThread? {
      var r := Post(s, t, role, content, msgId, now);
      StoreModel.AddAIMessageIsolated(s, t.noteId, role, content, msgId, now);
      FirstMatchSameIds(s.notes, r.notes, t.noteId);
    }
  }

  /** A whole exchange, successful or not: the user turn and then exactly
      one assistant turn land, in that order, at the end of the thread
      captured at send time, whatever was selected in between. */
  lemma ExchangeAppendsTwo(s: StoreModel.StoreState, t: Target, between: Option<string>, question: string,
                           answer: string, userId: string, replyId: string, t1: int, t2: int)
    requires Reachable(s, t)
    ensures var mid := Post(s, t, User, question, userId, t1).(selectedNoteId := between);
      var last := Post(mid, t, Assistant, answer, replyId, t2);
      ThreadOf(last, t) == ThreadOf(s, t) + [AIMessage(userId, User, question, t1), AIMessage(replyId, Assistant, answer, t2)]
  {
    var first := Post(s, t, User, question, userId, t1);
    PostAppendsOne(s, t, User, question, userId, t1);
    PostKeepsReachable(s, t, User, question, userId, t1);
    var mid := first.(selectedNoteId := between);
    assert ThreadOf(mid, t) == ThreadOf(first, t);
    PostAppendsOne(mid, t, Assistant, answer, replyId, t2);
  }

  // --------------------------------------------------------- quick action

  /** The four quick-action buttons, as (label, prompt); only their
      prompts reach `handleQuickAction`. */
  const QuickActions: seq<(string, string)> := [
    ("润色", "请帮我润色以下内容，使语言更流畅优美："),
    ("摘要", "请为以下内容生成简洁的摘要："),
    ("扩写", "请帮我扩写以下内容，使其更丰富详细："),
    ("翻译", "请翻译以下内容为英文：")
  ]

  /** How much of the note a quick action quotes. */
  const QuoteLimit := 2000

  /** `handleQuickAction(prompt)`: the new input, or `None` when the
      selected note has no content (the input then stays as it was). */
  function QuickActionInput(prompt: string, s: StoreModel.StoreState): Option<string>
  {
    match FindNote(s.notes, s.selectedNoteId)
    case Some(n) =>
      if n.content != "" then Some(prompt + "\n\n" + n.content[..Min(QuoteLimit, |n.content|)]) else None
    case None => None
  }

  /** A quick action fires exactly when the selected note has content; the
      input is then the prompt, a blank line, and a prefix of the content
      of at most 2000 characters (all of it when it is shorter). */
  lemma QuickActionQuotesPrefix(prompt: string, s: StoreModel.StoreState)
    ensures var q := QuickActionInput(prompt, s);
      var n := FindNote(s.notes, s.selectedNoteId);
      && (q.Some? <==> n.Some? && n.value.content != "")
      && (q.Some? ==>
            var quoted := q.value[|prompt| + 2..];
            && |prompt| + 2 <= |q.value|
            && q.value[..|prompt| + 2] == prompt + "\n\n"
            && quoted <= n.value.content
            && |quoted| == Min(QuoteLimit, |n.value.content|))
  {
  }

  // ------------------------------------------------------------ the panel

  /** The panel's own state: the text box, the loading flag, the error line. */
  class ChatPanel {
    var input: string
    var isLoading: bool
    var error: Option<string>

    constructor ()
      ensures input == "" && !isLoading && error == None
    {
      input, isLoading, error := "", false, None;
    }

    /** `handleSend` up to the awaited request: clears the error, applies
        the two guards, clears the box, appends the user message to the
        captured target, raises the loading flag, and hands back the
        request built from the state the panel rendered. */
    method Send(store: Store.AppStore, msgId: string, now: int) returns (plan: SendPlan)
      requires store.Valid()
      modifies this, store
      ensures store.Valid()
      ensures plan == PlanSend(old(store.State()), old(input))
      ensures error == (if plan.NeedsKey? then Some(plan.error) else None)
      ensures input == (if plan.Dispatch? then "" else old(input))
      ensures isLoading == (plan.Dispatch? || old(isLoading))
      ensures store.State()
           == if plan.Dispatch? then Post(old(store.State()), plan.target, User, plan.userText, msgId, now)
              else old(store.State())
    {
      var rendered := store.State();
      error := None;
      var text := Trim(input);
      if text == [] {
        return Ignored;
      }
      if rendered.config.aiApiKey == "" {
        var message := MissingKeyError(rendered.config.aiProvider);
        error := Some(message);
        return NeedsKey(message);
      }
      input := "";
      var target := TargetOf(rendered.selectedNoteId);
      match target {
        case GlobalThread =>
          store.AddGlobalAIMessage(User, text, msgId, now);
        case NoteThread(id) =>
          store.AddAIMessage(id, User, text, msgId, now);
      }
      isLoading := true;
      plan := Dispatch(target, text, BuildRequest(rendered, text));
    }

    /** The rest of `handleSend`: the reply (or the failure) becomes one
        assistant message on the target captured at send, and loading ends. */
    method Receive(store: Store.AppStore, target: Target, outcome: Outcome, msgId: string, now: int)
      requires store.Valid()
      modifies this, store
      ensures store.Valid()
      ensures store.State() == Post(old(store.State()), target, Assistant, ReplyText(outcome), msgId, now)
      ensures !isLoading && input == old(input) && error == old(error)
    {
      var content := ReplyText(outcome);
      match target {
        case GlobalThread =>
          store.AddGlobalAIMessage(Assistant, content, msgId, now);
        case NoteThread(id) =>
          store.AddAIMessage(id, Assistant, content, msgId, now);
      }
      isLoading := false;
    }

    /** `handleQuickAction(prompt)`. */
    method QuickAction(store: Store.AppStore, prompt: string)
      requires exists i :: 0 <= i < |QuickActions| && QuickActions[i].1 == prompt
      modifies this
      ensures var q := QuickActionInput(prompt, store.State());
        input == if q.Some? then q.value else old(input)
      ensures isLoading == old(isLoading) && error == old(error)
    {
      var q := QuickActionInput(prompt, store.State());
      if q.Some? {
        input := q.value;
      }
    }
  }
}
