/** The in-memory session store (app/storage/session_store.py): one record
    per session id, updated in place by the pipeline and the chat endpoint.
    The store's dictionary is a `map` field the methods reassign; the clock
    (`datetime.now`) is a parameter. */
module SessionStorage {
  import opened PyBuiltins
  import opened Schemas

  /** One stored record: the keys `create` writes. */
  datatype SessionRecord = SessionRecord(
    sessionId: string,
    status: SessionStatus,
    createdAt: int,
    videoFilename: string,
    surferName: Option<string>,
    skillLevel: Option<string>,
    report: Option<SessionReport>,
    errorMessage: Option<string>,
    chatHistory: seq<ChatMessage>)

  type Sessions = map<string, SessionRecord>

  const USER_ROLE := "user"
  const ASSISTANT_ROLE := "assistant"

  /** A history made of user/assistant pairs, in that order. */
  predicate ChatPairs(history: seq<ChatMessage>)
  {
    |history| % 2 == 0 &&
    forall k :: 0 <= k < |history| ==> history[k].role == (if k % 2 == 0 then USER_ROLE else ASSISTANT_ROLE)
  }

  /** What the store keeps true: each record sits under its own id and its
      chat history is a sequence of user/assistant pairs. */
  predicate WellFormed(sessions: Sessions)
  {
    forall id :: id in sessions ==> sessions[id].sessionId == id && ChatPairs(sessions[id].chatHistory)
  }

  /** Only the record under `id` may differ. */
  predicate OthersUnchanged(before: Sessions, after: Sessions, id: string)
  {
    before.Keys - {id} == after.Keys - {id} &&
    forall other :: other in before && other in after && other != id ==> after[other] == before[other]
  }

  /** The store after `create`: a fresh pending record, replacing any record
      under the same id. */
  function Created(sessions: Sessions, sessionId: string, videoFilename: string,
                   surferName: Option<string>, skillLevel: Option<string>, now: int): (r: Sessions)
    ensures r.Keys == sessions.Keys + {sessionId}
    ensures OthersUnchanged(sessions, r, sessionId)
    ensures r[sessionId].status == Pending && r[sessionId].report == None && r[sessionId].errorMessage == None
    ensures r[sessionId].chatHistory == [] && r[sessionId].sessionId == sessionId && r[sessionId].createdAt == now
    ensures r[sessionId].videoFilename == videoFilename
    ensures r[sessionId].surferName == surferName && r[sessionId].skillLevel == skillLevel
  {
    sessions[sessionId := SessionRecord(sessionId, Pending, now, videoFilename, surferName, skillLevel, None, None, [])]
  }

  /** The store after `update_status`: nothing for an unknown id; otherwise
      the new status, and the error message only when one is given. */
  function StatusUpdated(sessions: Sessions, sessionId: string, status: SessionStatus, errorMessage: Option<string>): (r: Sessions)
    ensures sessionId !in sessions ==> r == sessions
    ensures r.Keys == sessions.Keys && OthersUnchanged(sessions, r, sessionId)
    ensures sessionId in sessions ==>
      && r[sessionId].status == status
      && r[sessionId].errorMessage == (if Truthy(errorMessage) then errorMessage else sessions[sessionId].errorMessage)
      && r[sessionId].(status := sessions[sessionId].status, errorMessage := sessions[sessionId].errorMessage) == sessions[sessionId]
  {
    if sessionId !in sessions then sessions
    else
      var record := sessions[sessionId].(status := status);
      sessions[sessionId := if Truthy(errorMessage) then record.(errorMessage := errorMessage) else record]
  }

  /** The store after `save_report`: the report stored and the session
      completed; nothing for an unknown id. */
  function ReportSaved(sessions: Sessions, sessionId: string, report: SessionReport): (r: Sessions)
    ensures sessionId !in sessions ==> r == sessions
    ensures r.Keys == sessions.Keys && OthersUnchanged(sessions, r, sessionId)
    ensures sessionId in sessions ==>
      && r[sessionId].report == Some(report) && r[sessionId].status == Completed
      && r[sessionId].(report := sessions[sessionId].report, status := sessions[sessionId].status) == sessions[sessionId]
  {
    if sessionId !in sessions then sessions
    else sessions[sessionId := sessions[sessionId].(report := Some(report), status := Completed)]
  }

  /** The store after `append_chat`: the history longer by the user message
      and then the assistant reply, both stamped `now`; nothing for an
      unknown id. */
  function ChatAppended(sessions: Sessions, sessionId: string, userMessage: string, assistantReply: string, now: int): (r: Sessions)
    ensures sessionId !in sessions ==> r == sessions
    ensures r.Keys == sessions.Keys && OthersUnchanged(sessions, r, sessionId)
    ensures sessionId in sessions ==>
      && |r[sessionId].chatHistory| == |sessions[sessionId].chatHistory| + 2
      && r[sessionId].chatHistory[..|sessions[sessionId].chatHistory|] == sessions[sessionId].chatHistory
      && r[sessionId].chatHistory[|sessions[sessionId].chatHistory|] == ChatMessage(USER_ROLE, userMessage, now)
      && r[sessionId].chatHistory[|sessions[sessionId].chatHistory| + 1] == ChatMessage(ASSISTANT_ROLE, assistantReply, now)
      && r[sessionId].(chatHistory := sessions[sessionId].chatHistory) == sessions[sessionId]
  {
    if sessionId !in sessions then sessions
    else
      var record := sessions[sessionId];
      var pair := [ChatMessage(USER_ROLE, userMessage, now), ChatMessage(ASSISTANT_ROLE, assistantReply, now)];
      assert (record.chatHistory + pair)[..|record.chatHistory|] == record.chatHistory;
      sessions[sessionId := record.(chatHistory := record.chatHistory + pair)]
  }

  /** What `get_chat_history` returns: the history, or nothing for an unknown id. */
  function ChatHistoryOf(sessions: Sessions, sessionId: string): seq<ChatMessage>
  {
    if sessionId in sessions then sessions[sessionId].chatHistory else []
  }

  /** `create`, `update_status` and `save_report` keep the store well formed. */
  lemma RecordUpdatesKeepWellFormed(sessions: Sessions, sessionId: string, videoFilename: string,
                                    surferName: Option<string>, skillLevel: Option<string>, now: int,
                                    status: SessionStatus, errorMessage: Option<string>, report: SessionReport)
    requires WellFormed(sessions)
    ensures WellFormed(Created(sessions, sessionId, videoFilename, surferName, skillLevel, now))
    ensures WellFormed(StatusUpdated(sessions, sessionId, status, errorMessage))
    ensures WellFormed(ReportSaved(sessions, sessionId, report))
  {
  }

  /** `append_chat` keeps the store well formed: a user/assistant pair
      extends a history of pairs. */
  lemma ChatAppendedWellFormed(sessions: Sessions, sessionId: string, userMessage: string, assistantReply: string, now: int)
    requires WellFormed(sessions)
    ensures WellFormed(ChatAppended(sessions, sessionId, userMessage, assistantReply, now))
  {
    if sessionId in sessions {
      var h := sessions[sessionId].chatHistory;
      var h' := ChatAppended(sessions, sessionId, userMessage, assistantReply, now)[sessionId].chatHistory;
      assert h' == h + [ChatMessage(USER_ROLE, userMessage, now), ChatMessage(ASSISTANT_ROLE, assistantReply, now)];
      forall k | 0 <= k < |h'|
        ensures h'[k].role == (if k % 2 == 0 then USER_ROLE else ASSISTANT_ROLE)
      {
        if k < |h| {
          assert h'[k] == h[k];
        }
      }
    }
  }

  /** Reading the history after `append_chat` gives the old history and the
      new pair; on an unknown id both stay empty. */
  lemma HistoryAfterAppend(sessions: Sessions, sessionId: string, userMessage: string, assistantReply: string, now: int)
    ensures ChatHistoryOf(ChatAppended(sessions, sessionId, userMessage, assistantReply, now), sessionId) ==
      if sessionId in sessions
      then ChatHistoryOf(sessions, sessionId) + [ChatMessage(USER_ROLE, userMessage, now), ChatMessage(ASSISTANT_ROLE, assistantReply, now)]
      else []
  {
  }

  /** A newly created session has no chat history, even if one was stored
      under the same id before. */
  lemma CreateClearsHistory(sessions: Sessions, sessionId: string, videoFilename: string,
                            surferName: Option<string>, skillLevel: Option<string>, now: int)
    ensures ChatHistoryOf(Created(sessions, sessionId, videoFilename, surferName, skillLevel, now), sessionId) == []
  {
  }

  class SessionStore {
    var sessions: Sessions

    ghost predicate Valid()
      reads this
    {
      WellFormed(sessions)
    }

    constructor ()
      ensures sessions == map[] && Valid()
    {
      sessions := map[];
    }

    method Create(sessionId: string, videoFilename: string, surferName: Option<string>, skillLevel: Option<string>, now: int)
      returns (response: SessionResponse)
      modifies this
      ensures sessions == Created(old(sessions), sessionId, videoFilename, surferName, skillLevel, now)
      ensures response == SessionResponse(sessionId, Pending, now, videoFilename, surferName, skillLevel)
      ensures old(Valid()) ==> Valid()
    {
      var record := SessionRecord(sessionId, Pending, now, videoFilename, surferName, skillLevel, None, None, []);
      sessions := sessions[sessionId := record];
      response := SessionResponse(record.sessionId, record.status, record.createdAt, record.videoFilename,
                                  record.surferName, record.skillLevel);
    }

    method UpdateStatus(sessionId: string, status: SessionStatus, errorMessage: Option<string>)
      modifies this
      ensures sessions == StatusUpdated(old(sessions), sessionId, status, errorMessage)
      ensures old(Valid()) ==> Valid()
    {
      if sessionId in sessions {
        sessions := sessions[sessionId := sessions[sessionId].(status := status)];
        if errorMessage.Some? && errorMessage.value != "" {
          sessions := sessions[sessionId := sessions[sessionId].(errorMessage := errorMessage)];
        }
      }
    }

    method SaveReport(sessionId: string, report: SessionReport)
      modifies this
      ensures sessions == ReportSaved(old(sessions), sessionId, report)
      ensures old(Valid()) ==> Valid()
    {
      if sessionId in sessions {
        sessions := sessions[sessionId := sessions[sessionId].(report := Some(report))];
        sessions := sessions[sessionId := sessions[sessionId].(status := Completed)];
      }
    }

    method AppendChat(sessionId: string, userMessage: string, assistantReply: string, now: int)
      modifies this
      ensures sessions == ChatAppended(old(sessions), sessionId, userMessage, assistantReply, now)
      ensures old(Valid()) ==> Valid()
    {
      assert WellFormed(sessions) ==> WellFormed(ChatAppended(sessions, sessionId, userMessage, assistantReply, now)) by {
        if WellFormed(sessions) {
          ChatAppendedWellFormed(sessions, sessionId, userMessage, assistantReply, now);
        }
      }
      if sessionId !in sessions {
        return;
      }
      var history := sessions[sessionId].chatHistory;
      history := history + [ChatMessage(USER_ROLE, userMessage, now), ChatMessage(ASSISTANT_ROLE, assistantReply, now)];
      sessions := sessions[sessionId := sessions[sessionId].(chatHistory := history)];
    }

    method GetChatHistory(sessionId: string) returns (history: seq<ChatMessage>)
      ensures sessionId !in sessions ==> history == []
      ensures sessionId in sessions ==> history == sessions[sessionId].chatHistory
    {
      if sessionId !in sessions {
        return [];
      }
      history := sessions[sessionId].chatHistory;
    }

    method Get(sessionId: string) returns (record: Option<SessionRecord>)
      ensures record.None? <==> sessionId !in sessions
      ensures record.Some? ==> record.value == sessions[sessionId]
    {
      if sessionId in sessions {
        record := Some(sessions[sessionId]);
      } else {
        record := None;
      }
    }
  }
}
