/** The question-answering endpoint over meeting transcripts: the two prompt builders
    and the decision sequence of the query handler. The embedding model, the database
    and the language model are parameters; calls to them are recorded in order. */
module RagAnswer {
  import opened Wrappers
  import opened Text
  import opened Meetings
  import opened ChunkStore

  // ---------------------------------------------------------------------------
  // Requests, prompts and responses
  // ---------------------------------------------------------------------------

  datatype ConversationMessage = ConversationMessage(role: string, content: string)

  datatype RagRequest = RagRequest(
    query: string, mode: string, meetingId: Option<int>,
    conversation: seq<ConversationMessage>, filters: Option<Filters>)

  /** The environment settings the handler reads. */
  datatype RagConfig = RagConfig(ragTopK: nat, askMeetingTopK: nat, ragMaxHistory: int)

  /** RAG_TOP_K, ASK_MEETING_TOP_K and RAG_MAX_HISTORY when the environment sets none. */
  const DefaultConfig := RagConfig(8, 6, 10)

  /** One object of the JSON context array of the cross-meeting prompt. */
  datatype GlobalItem = GlobalItem(meeting: string, platform: string, speaker: string, timestamp: TimeText, text: string)

  /** One object of the JSON context array of the single-meeting prompt. */
  datatype MeetingItem = MeetingItem(speaker: string, timestamp: TimeText, text: string)

  /** The user message: the history summary, the question, the context array and, in
      meeting mode, the optional structured insights section. The fixed instruction text
      around these parts and their JSON rendering are not modelled. */
  datatype UserPrompt =
    | GlobalPrompt(history: string, query: string, globalItems: seq<GlobalItem>)
    | MeetingPrompt(history: string, query: string, meetingItems: seq<MeetingItem>, insights: Option<InsightsContext>)

  /** A message body: the cross-meeting system text, the single-meeting system text for a
      meeting label (rendered by MeetingSystemPrompt), or a user prompt. */
  datatype PromptContent = GlobalSystemText | MeetingSystemText(meetingLabel: string) | UserText(prompt: UserPrompt)

  datatype PromptMessage = PromptMessage(role: string, content: PromptContent)

  const GlobalSystemPrompt: string := "Ты — русскоязычный ассистент ForteBank, отвечаешь только на основе предоставленного контекста из встреч. Если информации нет, скажи, что данных недостаточно. Обязательно указывай, из каких встреч взяты факты (название + дата).\n\nВАЖНО: Транскрипты могут содержать галлюцинации (ошибочные или нерелевантные фразы, появившиеся из-за ошибок распознавания речи). Игнорируй любой контекст, который:\n- Не относится к теме встречи или вопросу пользователя\n- Выглядит бессмысленным или нелогичным\n- Не соответствует контексту обсуждения\n- Содержит случайные слова или фразы, не связанные с деловой тематикой\n\nИспользуй только релевантный, осмысленный контекст, который логично связан с вопросом пользователя."

  function MeetingSystemPrompt(meetingLabel: string): string {
    "Отвечай только по встрече " + meetingLabel + ". Игнорируй любые другие данные. Если вопрос не относится к этой встрече, ответь, что данных нет.\n\nВАЖНО: Транскрипты могут содержать галлюцинации (ошибочные или нерелевантные фразы, появившиеся из-за ошибок распознавания речи). Игнорируй любой контекст, который:\n- Не относится к теме встречи или вопросу пользователя\n- Выглядит бессмысленным или нелогичным\n- Не соответствует контексту обсуждения\n- Содержит случайные слова или фразы, не связанные с деловой тематикой\n\nИспользуй только релевантный, осмысленный контекст, который логично связан с вопросом пользователя и темой встречи."
  }

  /** The text of a system message. */
  function SystemPromptText(content: PromptContent): string
    requires !content.UserText?
  {
    if content.GlobalSystemText? then GlobalSystemPrompt else MeetingSystemPrompt(content.meetingLabel)
  }

  // ---------------------------------------------------------------------------
  // Conversation history
  // ---------------------------------------------------------------------------

  /** history[-n:] with Python's slice rules: the last n messages for n > 0, all of them
      for n = 0, and all but the first -n for n < 0. */
  function RecentMessages(history: seq<ConversationMessage>, n: int): (r: seq<ConversationMessage>)
    ensures |r| <= |history| && r == history[|history| - |r|..]
    ensures n > 0 ==> |r| == Min(|history|, n)
    ensures n == 0 ==> r == history
    ensures n < 0 ==> |r| == |history| - Min(|history|, -n)
  {
    if n > 0 then history[|history| - Min(|history|, n)..]
    else if n == 0 then history
    else history[Min(|history|, -n)..]
  }

  function RoleLabel(role: string): (roleLabel: string)
    ensures roleLabel == "Пользователь" <==> role == "user"
    ensures roleLabel != "Пользователь" ==> roleLabel == "Ассистент"
  {
    if role == "user" then "Пользователь" else "Ассистент"
  }

  function HistoryLine(m: ConversationMessage): string {
    RoleLabel(m.role) + ": " + m.content
  }

  function HistoryLines(messages: seq<ConversationMessage>): (lines: seq<string>)
    ensures |lines| == |messages|
    ensures forall i :: 0 <= i < |messages| ==> lines[i] == HistoryLine(messages[i])
  {
    seq(|messages|, i requires 0 <= i < |messages| => HistoryLine(messages[i]))
  }

  /** The history summary both prompts start with: empty without history, otherwise
      one "label: content" line per recent message. */
  function HistoryText(history: seq<ConversationMessage>, maxHistory: int): string {
    if history == [] then "" else Join("\n", HistoryLines(RecentMessages(history, maxHistory)))
  }

  /** The history_parts loop of both builders. */
  method BuildHistorySummary(history: seq<ConversationMessage>, maxHistory: int) returns (summary: string)
    ensures summary == HistoryText(history, maxHistory)
  {
    summary := "";
    if history != [] {
      var recent := RecentMessages(history, maxHistory);
      var parts: seq<string> := [];
      var i := 0;
      while i < |recent|
        invariant 0 <= i <= |recent|
        invariant parts == HistoryLines(recent[..i])
      {
        var roleLabel := RoleLabel(recent[i].role);
        parts := parts + [roleLabel + ": " + recent[i].content];
        i := i + 1;
      }
      assert recent[..|recent|] == recent;
      summary := Join("\n", parts);
    }
  }

  // ---------------------------------------------------------------------------
  // Context items
  // ---------------------------------------------------------------------------

  function TimestampText(t: Option<real>): TimeText {
    if t.Some? then IsoFormat(t.value) else Literal("n/a")
  }

  function MeetingLabel(nativeId: Option<string>, id: int): string {
    OrElse(nativeId, "Meeting #" + IntToString(id))
  }

  function GlobalItemOf(c: Chunk): GlobalItem {
    GlobalItem(MeetingLabel(c.meetingNativeId, c.meetingId), OrElse(c.platform, "unknown"),
               OrElse(c.speaker, "Unknown"), TimestampText(c.timestamp), c.text)
  }

  function MeetingItemOf(c: Chunk): MeetingItem {
    MeetingItem(OrElse(c.speaker, "Unknown"), TimestampText(c.timestamp), c.text)
  }

  /** The context loop of the cross-meeting prompt: one item per chunk, in order, with
      the native id or "Meeting #id", "unknown", "Unknown" and "n/a" as defaults. */
  method GlobalContextItems(chunks: seq<Chunk>) returns (items: seq<GlobalItem>)
    ensures |items| == |chunks|
    ensures forall i :: 0 <= i < |chunks| ==>
      && items[i].meeting == (if Truthy(chunks[i].meetingNativeId) then chunks[i].meetingNativeId.value
                              else "Meeting #" + IntToString(chunks[i].meetingId))
      && items[i].platform == OrElse(chunks[i].platform, "unknown")
      && items[i].speaker == OrElse(chunks[i].speaker, "Unknown")
      && items[i].timestamp == (if chunks[i].timestamp.Some? then IsoFormat(chunks[i].timestamp.value) else Literal("n/a"))
      && items[i].text == chunks[i].text
    ensures items == GlobalItems(chunks)
  {
    items := [];
    var i := 0;
    while i < |chunks|
      invariant 0 <= i <= |chunks|
      invariant items == GlobalItems(chunks[..i])
    {
      items := items + [GlobalItemOf(chunks[i])];
      i := i + 1;
    }
    assert chunks[..|chunks|] == chunks;
  }

  function GlobalItems(chunks: seq<Chunk>): (items: seq<GlobalItem>)
    ensures |items| == |chunks|
    ensures forall i :: 0 <= i < |chunks| ==> items[i] == GlobalItemOf(chunks[i])
  {
    seq(|chunks|, i requires 0 <= i < |chunks| => GlobalItemOf(chunks[i]))
  }

  /** The chunks of one meeting, in order. */
  function SameMeeting(chunks: seq<Chunk>, meetingId: int): (kept: seq<Chunk>)
    ensures |kept| <= |chunks|
    ensures forall c :: c in kept <==> c in chunks && c.meetingId == meetingId
  {
    if chunks == [] then []
    else
      var init := SameMeeting(chunks[..|chunks| - 1], meetingId);
      var last := chunks[|chunks| - 1];
      assert chunks == chunks[..|chunks| - 1] + [last];
      if last.meetingId == meetingId then init + [last] else init
  }

  lemma {:induction false} SameMeetingConcat(a: seq<Chunk>, b: seq<Chunk>, meetingId: int)
    ensures SameMeeting(a + b, meetingId) == SameMeeting(a, meetingId) + SameMeeting(b, meetingId)
    decreases |b|
  {
    if b != [] {
      var b0 := b[..|b| - 1];
      SameMeetingConcat(a, b0, meetingId);
      assert (a + b)[..|a + b| - 1] == a + b0;
    } else {
      assert a + b == a;
    }
  }

  /** A chunk of another meeting slipped into the retrieved list anywhere changes
      nothing in the single-meeting context. */
  lemma ForeignChunkDropped(before: seq<Chunk>, foreign: Chunk, after: seq<Chunk>, meetingId: int)
    requires foreign.meetingId != meetingId
    ensures SameMeeting(before + [foreign] + after, meetingId) == SameMeeting(before + after, meetingId)
  {
    SameMeetingConcat(before + [foreign], after, meetingId);
    SameMeetingConcat(before, [foreign], meetingId);
    SameMeetingConcat(before, after, meetingId);
    assert SameMeeting([foreign], meetingId) == [] by {
      assert [foreign][..0] == [];
    }
  }

  function MeetingItems(chunks: seq<Chunk>): (items: seq<MeetingItem>)
    ensures |items| == |chunks|
    ensures forall i :: 0 <= i < |chunks| ==> items[i] == MeetingItemOf(chunks[i])
  {
    seq(|chunks|, i requires 0 <= i < |chunks| => MeetingItemOf(chunks[i]))
  }

  /** The context loop of the single-meeting prompt: chunks of other meetings are
      skipped, the others become items in order. */
  method MeetingContextItems(meetingId: int, chunks: seq<Chunk>) returns (items: seq<MeetingItem>)
    ensures items == MeetingItems(SameMeeting(chunks, meetingId))
    ensures |items| <= |chunks|
  {
    items := [];
    var i := 0;
    while i < |chunks|
      invariant 0 <= i <= |chunks|
      invariant items == MeetingItems(SameMeeting(chunks[..i], meetingId))
    {
      assert chunks[..i + 1][..i] == chunks[..i];
      if chunks[i].meetingId == meetingId {
        items := items + [MeetingItemOf(chunks[i])];
      }
      i := i + 1;
    }
    assert chunks[..|chunks|] == chunks;
  }

  // ---------------------------------------------------------------------------
  // The two prompt builders
  // ---------------------------------------------------------------------------

  function GlobalMessages(query: string, chunks: seq<Chunk>, history: seq<ConversationMessage>, maxHistory: int): seq<PromptMessage> {
    [PromptMessage("system", GlobalSystemText),
     PromptMessage("user", UserText(GlobalPrompt(HistoryText(history, maxHistory), query, GlobalItems(chunks))))]
  }

  function MeetingMessages(query: string, meeting: Meeting, chunks: seq<Chunk>, insights: Option<InsightsContext>,
                           history: seq<ConversationMessage>, maxHistory: int): seq<PromptMessage> {
    [PromptMessage("system", MeetingSystemText(MeetingLabel(meeting.nativeId, meeting.id))),
     PromptMessage("user", UserText(MeetingPrompt(HistoryText(history, maxHistory), query,
                                                  MeetingItems(SameMeeting(chunks, meeting.id)), insights)))]
  }

  /** build_global_rag_prompt: a system message, then a user message carrying one context
      item per chunk. */
  method BuildGlobalRagPrompt(query: string, chunks: seq<Chunk>, history: seq<ConversationMessage>, maxHistory: int)
    returns (messages: seq<PromptMessage>)
    ensures |messages| == 2 && messages[0].role == "system" && messages[1].role == "user"
    ensures messages[1].content.UserText? && messages[1].content.prompt.GlobalPrompt?
      && |messages[1].content.prompt.globalItems| == |chunks|
    ensures messages == GlobalMessages(query, chunks, history, maxHistory)
  {
    var contextItems := GlobalContextItems(chunks);
    var historySummary := BuildHistorySummary(history, maxHistory);
    messages := [PromptMessage("system", GlobalSystemText),
                 PromptMessage("user", UserText(GlobalPrompt(historySummary, query, contextItems)))];
  }

  /** build_meeting_rag_prompt: a system message naming the meeting, then a user message
      whose context holds only that meeting's chunks and whose insights section is there
      exactly when an insights context is given. */
  method BuildMeetingRagPrompt(query: string, meeting: Meeting, chunks: seq<Chunk>, insights: Option<InsightsContext>,
                               history: seq<ConversationMessage>, maxHistory: int)
    returns (messages: seq<PromptMessage>)
    ensures |messages| == 2 && messages[0].role == "system" && messages[1].role == "user"
    ensures messages[1].content.UserText? && messages[1].content.prompt.MeetingPrompt?
    ensures messages[1].content.prompt.insights.Some? <==> insights.Some?
    ensures messages[1].content.prompt.meetingItems == MeetingItems(SameMeeting(chunks, meeting.id))
    ensures messages == MeetingMessages(query, meeting, chunks, insights, history, maxHistory)
  {
    var meetingLabel := MeetingLabel(meeting.nativeId, meeting.id);
    var contextItems := MeetingContextItems(meeting.id, chunks);
    var historySummary := BuildHistorySummary(history, maxHistory);
    messages := [PromptMessage("system", MeetingSystemText(meetingLabel)),
                 PromptMessage("user", UserText(MeetingPrompt(historySummary, query, contextItems, insights)))];
  }

  // ---------------------------------------------------------------------------
  // The query handler
  // ---------------------------------------------------------------------------

  datatype TokenUsage = TokenUsage(promptTokens: int, completionTokens: int, totalTokens: int)

  /** What the language model call yields: the answer text extracted from the reply
      (possibly empty), its usage counters when the reply has them, and the reply's
      printed form. */
  datatype LlmReply = LlmReply(answerText: string, usage: Option<TokenUsage>, printed: string)

  datatype ChunkResponse = ChunkResponse(
    id: int, meetingId: int, meetingNativeId: Option<string>, platform: Option<string>,
    speaker: Option<string>, text: string, startTime: Option<real>, endTime: Option<real>,
    timestamp: Option<TimeText>, chunkType: string, similarityScore: int)

  /** The HTTP outcome: a response body, or an error status with its detail. */
  datatype RagResponse =
    | Answer(answer: string, chunks: seq<ChunkResponse>, tokenUsage: Option<TokenUsage>)
    | HttpError(status: int, detail: string)

  /** The calls the handler makes to the services around it, in order. */
  datatype ExternalCall =
    | EmbedQuery(text: string)
    | RetrieveChunks(filters: Filters, limit: nat)
    | LookupMeeting(id: int)
    | CallLlm(messages: seq<PromptMessage>)

  const NoDataAnswer := "Не найдено релевантных данных в транскриптах встреч."

  predicate ValidMode(mode: string) {
    mode == "global" || mode == "meeting"
  }

  /** `request.meeting_id` is truthy: present and not 0. */
  predicate HasMeetingId(request: RagRequest) {
    request.meetingId.Some? && request.meetingId.value != 0
  }

  predicate ValidRequest(request: RagRequest) {
    ValidMode(request.mode) && (request.mode == "meeting" ==> HasMeetingId(request))
  }

  /** The filters passed to retrieval: the request's, with meeting_id forced in meeting mode. */
  function RequestFilters(request: RagRequest): (f: Filters)
    ensures request.mode == "meeting" ==> f.meetingId == request.meetingId
    ensures request.mode != "meeting" ==> f == request.filters.GetOr(NoFilters)
  {
    var f := request.filters.GetOr(NoFilters);
    if request.mode == "meeting" then f.(meetingId := request.meetingId) else f
  }

  function RequestLimit(request: RagRequest, config: RagConfig): nat {
    if request.mode == "meeting" then config.askMeetingTopK else config.ragTopK
  }

  function ChunkResponseOf(c: Chunk): ChunkResponse {
    ChunkResponse(c.id, c.meetingId, c.meetingNativeId, c.platform, c.speaker, c.text,
                  c.startTime, c.endTime, if c.timestamp.Some? then Some(IsoFormat(c.timestamp.value)) else None,
                  c.chunkType, c.similarityScore)
  }

  function ChunkResponses(chunks: seq<Chunk>): (rs: seq<ChunkResponse>)
    ensures |rs| == |chunks|
    ensures forall i :: 0 <= i < |chunks| ==> rs[i] == ChunkResponseOf(chunks[i])
  {
    seq(|chunks|, i requires 0 <= i < |chunks| => ChunkResponseOf(chunks[i]))
  }

  /** The chunks retrieved for a valid request whose query was embedded. */
  function Retrieved(request: RagRequest, config: RagConfig, queryVector: Vector,
                     database: (Vector, Filters, nat) -> seq<ScoredRow>): seq<Chunk> {
    var limit := RequestLimit(request, config);
    Converted(database(queryVector, RequestFilters(request), limit), limit)
  }

  /** The messages sent to the language model for a request that got this far. */
  function PromptFor(request: RagRequest, config: RagConfig, chunks: seq<Chunk>, meetings: map<int, Meeting>): seq<PromptMessage>
    requires request.mode == "meeting" ==> request.meetingId.Some? && request.meetingId.value in meetings
  {
    if request.mode == "meeting" then
      var meeting := meetings[request.meetingId.value];
      MeetingMessages(request.query, meeting, chunks, MeetingInsightsContext(Some(meeting)),
                      request.conversation, config.ragMaxHistory)
    else GlobalMessages(request.query, chunks, request.conversation, config.ragMaxHistory)
  }

  /** What rag_query does once retrieval found chunks: a 404 after the lookup when the
      meeting is missing; otherwise the prompt goes to the language model (after the
      lookup in meeting mode), and its failure, an empty answer or the answer with one
      entry per retrieved chunk is the response. `calls` are the calls of this part. */
  ghost predicate Answered(request: RagRequest, config: RagConfig, chunks: seq<Chunk>,
                           meetings: map<int, Meeting>, llm: seq<PromptMessage> -> Result<LlmReply>,
                           response: RagResponse, calls: seq<ExternalCall>)
    requires ValidRequest(request)
  {
    && (request.mode == "meeting" && request.meetingId.value !in meetings ==>
          response == HttpError(404, "Meeting " + IntToString(request.meetingId.value) + " not found")
          && calls == [LookupMeeting(request.meetingId.value)])
    && ((request.mode == "meeting" ==> request.meetingId.value in meetings) ==>
          var messages := PromptFor(request, config, chunks, meetings);
          && (request.mode == "meeting" ==> calls == [LookupMeeting(request.meetingId.value), CallLlm(messages)])
          && (request.mode == "global" ==> calls == [CallLlm(messages)])
          && (llm(messages).Err? ==> response == HttpError(500, "Failed to generate answer: " + llm(messages).message))
          && (llm(messages).Ok? && llm(messages).value.answerText == "" ==>
                response == HttpError(500, "Failed to generate answer: Unexpected response format: " + llm(messages).value.printed))
          && (llm(messages).Ok? && llm(messages).value.answerText != "" ==>
                response == Answer(llm(messages).value.answerText, ChunkResponses(chunks), llm(messages).value.usage)))
  }

  /** rag_query: validate, embed the query, retrieve with the effective filters and limit,
      answer with the fixed text when nothing is retrieved, look the meeting up in meeting
      mode, build the prompt, and call the language model. The embedding model, the
      similarity query, the meetings table and the language model are parameters. */
  method RagQuery(request: RagRequest, config: RagConfig,
                  embed: string -> Result<Vector>,
                  database: (Vector, Filters, nat) -> seq<ScoredRow>,
                  meetings: map<int, Meeting>,
                  llm: seq<PromptMessage> -> Result<LlmReply>)
    returns (response: RagResponse, calls: seq<ExternalCall>)
    // validation comes first and makes no call
    ensures !ValidMode(request.mode) ==>
              response == HttpError(400, "Mode must be 'global' or 'meeting'") && calls == []
    ensures ValidMode(request.mode) && request.mode == "meeting" && !HasMeetingId(request) ==>
              response == HttpError(400, "meeting_id is required for 'meeting' mode") && calls == []
    ensures (response.HttpError? && response.status == 400) <==> !ValidRequest(request)
    ensures ValidRequest(request) ==> |calls| >= 1 && calls[0] == EmbedQuery(request.query)
    ensures ValidRequest(request) && embed(request.query).Err? ==>
              response == HttpError(500, "Internal server error: " + embed(request.query).message) && |calls| == 1
    // retrieval with the effective filters and limit
    ensures ValidRequest(request) && embed(request.query).Ok? ==>
              |calls| >= 2 && calls[1] == RetrieveChunks(RequestFilters(request), RequestLimit(request, config))
    ensures ValidRequest(request) && embed(request.query).Ok? ==>
              var chunks := Retrieved(request, config, embed(request.query).value, database);
              && (chunks == [] ==> response == Answer(NoDataAnswer, [], None) && |calls| == 2)
              && (chunks != [] ==> |calls| >= 2 && Answered(request, config, chunks, meetings, llm, response, calls[2..]))
  {
    calls := [];
    if request.mode != "global" && request.mode != "meeting" {
      return HttpError(400, "Mode must be 'global' or 'meeting'"), calls;
    }
    if request.mode == "meeting" && !(request.meetingId.Some? && request.meetingId.value != 0) {
      return HttpError(400, "meeting_id is required for 'meeting' mode"), calls;
    }

    calls := [EmbedQuery(request.query)];
    var embedding := embed(request.query);
    if embedding.Err? {
      return HttpError(500, "Internal server error: " + embedding.message), calls;
    }
    var queryEmbedding := embedding.value;

    var filters := request.filters.GetOr(NoFilters);
    if request.mode == "meeting" {
      filters := filters.(meetingId := request.meetingId);
    }
    var limit := if request.mode == "meeting" then config.askMeetingTopK else config.ragTopK;
    assert filters == RequestFilters(request) && limit == RequestLimit(request, config);

    calls := [EmbedQuery(request.query), RetrieveChunks(filters, limit)];
    var chunks := FetchChunks(database(queryEmbedding, filters, limit), limit);
    if chunks == [] {
      return Answer(NoDataAnswer, [], None), calls;
    }

    var rest;
    response, rest := AnswerRetrieved(request, config, chunks, meetings, llm);
    calls := calls + rest;
    assert calls[2..] == rest;
  }

  /** The part of rag_query after a non-empty retrieval: look the meeting up in meeting
      mode, build the prompt and call the language model. `calls` are the calls it makes. */
  method AnswerRetrieved(request: RagRequest, config: RagConfig, chunks: seq<Chunk>,
                         meetings: map<int, Meeting>,
                         llm: seq<PromptMessage> -> Result<LlmReply>)
    returns (response: RagResponse, calls: seq<ExternalCall>)
    requires ValidRequest(request)
    ensures Answered(request, config, chunks, meetings, llm, response, calls)
    ensures response.HttpError? ==> response.status == 404 || response.status == 500
  {
    calls := [];
    var meeting: Option<Meeting> := None;
    var insightsContext: Option<InsightsContext> := None;
    if request.mode == "meeting" {
      var id := request.meetingId.value;
      calls := calls + [LookupMeeting(id)];
      if id !in meetings {
        return HttpError(404, "Meeting " + IntToString(id) + " not found"), calls;
      }
      meeting := Some(meetings[id]);
      insightsContext := MeetingInsightsContext(meeting);
    }

    var messages;
    if request.mode == "meeting" {
      messages := BuildMeetingRagPrompt(request.query, meeting.value, chunks, insightsContext,
                                        request.conversation, config.ragMaxHistory);
    } else {
      messages := BuildGlobalRagPrompt(request.query, chunks, request.conversation, config.ragMaxHistory);
    }

    calls := calls + [CallLlm(messages)];
    var reply := llm(messages);
    if reply.Err? {
      return HttpError(500, "Failed to generate answer: " + reply.message), calls;
    }
    if reply.value.answerText == "" {
      return HttpError(500, "Failed to generate answer: Unexpected response format: " + reply.value.printed), calls;
    }
    var chunkResponses := ChunkResponses(chunks);
    response := Answer(reply.value.answerText, chunkResponses, reply.value.usage);
  }
}
