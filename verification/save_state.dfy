/** Saving a conversation's state after a reply. The session is complete when nothing more
  * is awaited: no input, no client-side action that expects a dedicated reply, and no wait
  * for an external event. An existing session is updated (never deleted, even when
  * complete); a new one is upserted at once. When the first typebot of the queue has a
  * result, the result is upserted too; the pending queries run as one transaction.
  *
  * The database is reduced to the list of writes in the order they are issued. */
module SaveState {
  import opened Text

  /** A client-side action, as far as saving reads it. */
  datatype ClientSideAction = ClientSideAction(expectsDedicatedReply: bool)

  /** The first entry of the typebot queue: its result, if any, and how many answers it has. */
  datatype QueueHead = QueueHead(typebotId: string, resultId: Option<string>, answerCount: nat)

  datatype SessionState = SessionState(currentBlockId: Option<string>, head: QueueHead)

  datatype SessionIdKind = Existing | New
  datatype SessionId = SessionId(kind: SessionIdKind, id: string)

  /** A query of the transaction. `DeleteSession` is the write completed sessions used to
    * get; it is never issued any more. */
  datatype Query =
    | UpdateSession(id: string, state: SessionState, isReplying: bool)
    | DeleteSession(id: string)
    | UpsertResult(resultId: string, typebotId: string, resultCompleted: bool, hasStarted: bool,
                   lastChatSessionId: string)

  /** A database write: the immediate session upsert, or the transaction of the queries. */
  datatype Write = UpsertSession(sessionId: string, sessionState: SessionState, replying: bool)
                 | Transaction(queries: seq<Query>)

  datatype SavedSession = SavedSession(id: string, state: SessionState)

  datatype SaveOutcome = SaveOutcome(session: SavedSession, writes: seq<Write>)

  /** The reply is saved with everything it holds. */
  datatype Reply = Reply(hasInput: bool, clientSideActions: Option<seq<ClientSideAction>>,
                         isWaitingForExternalEvent: Option<bool>)

  predicate ExpectsDedicatedReply(actions: Option<seq<ClientSideAction>>)
  {
    actions.Some? && exists i :: 0 <= i < |actions.value| && actions.value[i].expectsDedicatedReply
  }

  /** The session is complete iff nothing more is awaited. With the deletion of completed
    * sessions commented out, the source uses this flag only in a log line, so it decides
    * no write of the plan. */
  function IsCompleted(reply: Reply): (r: bool)
    ensures r <==> !reply.hasInput && !ExpectsDedicatedReply(reply.clientSideActions)
                   && reply.isWaitingForExternalEvent != Some(true)
  {
    !reply.hasInput && !ExpectsDedicatedReply(reply.clientSideActions) && !OrElseBool(reply.isWaitingForExternalEvent)
  }

  /** `flag ?? false`. */
  function OrElseBool(flag: Option<bool>): (r: bool)
    ensures r <==> flag == Some(true)
  {
    if flag.Some? then flag.value else false
  }

  /** The result is complete iff no input, no dedicated-reply action, and some answer. */
  function ResultCompleted(reply: Reply, answerCount: nat): (r: bool)
    ensures r <==> !reply.hasInput && !ExpectsDedicatedReply(reply.clientSideActions) && answerCount > 0
  {
    !reply.hasInput && !ExpectsDedicatedReply(reply.clientSideActions) && answerCount > 0
  }

  /** `saveStateToDatabase`: the saved session and the writes, in order. `upsertedId` is the
    * id of the session the upsert of a new session returns. */
  function SaveStatePlan(sessionId: SessionId, state: SessionState, reply: Reply, upsertedId: string)
    : (r: SaveOutcome)
    ensures sessionId.kind == Existing ==> r.session == SavedSession(sessionId.id, state)
    ensures sessionId.kind == New ==>
              r.session == SavedSession(upsertedId, state)
              && |r.writes| >= 1
              && r.writes[0] == UpsertSession(sessionId.id, state, OrElseBool(reply.isWaitingForExternalEvent))
  {
    var replying := OrElseBool(reply.isWaitingForExternalEvent);
    var updates := if sessionId.kind == Existing then [UpdateSession(sessionId.id, state, replying)] else [];
    var upserts := if sessionId.kind == New then [UpsertSession(sessionId.id, state, replying)] else [];
    var session := if sessionId.kind == Existing then SavedSession(sessionId.id, state) else SavedSession(upsertedId, state);
    var resultId := state.head.resultId;
    if !Truthy(resultId) then
      SaveOutcome(session, upserts + (if |updates| > 0 then [Transaction(updates)] else []))
    else
      var result := UpsertResult(resultId.value, state.head.typebotId, ResultCompleted(reply, state.head.answerCount),
                                 state.head.answerCount > 0, session.id);
      SaveOutcome(session, upserts + [Transaction(updates + [result])])
  }

  /** The handler: it collects the queries, upserts a new session at once, adds the result
    * write, and runs the queries as one transaction. */
  method SaveStateToDatabase(sessionId: SessionId, state: SessionState, reply: Reply, upsertedId: string)
    returns (session: SavedSession, writes: seq<Write>)
    ensures SaveOutcome(session, writes) == SaveStatePlan(sessionId, state, reply, upsertedId)
  {
    var replying := OrElseBool(reply.isWaitingForExternalEvent);
    var update := UpdateSession(sessionId.id, state, replying);
    var upsert := UpsertSession(sessionId.id, state, replying);
    var queries: seq<Query> := [];
    writes := [];
    var resultId := state.head.resultId;
    if sessionId.kind == Existing {
      queries := queries + [update];
      assert queries == [update];
    }
    if sessionId.kind == Existing {
      session := SavedSession(sessionId.id, state);
    } else {
      writes := writes + [upsert];
      assert writes == [upsert];
      session := SavedSession(upsertedId, state);
    }
    if !Truthy(resultId) {
      if |queries| > 0 {
        writes := writes + [Transaction(queries)];
        assert writes == [Transaction([update])];
      } else {
        assert writes + [] == writes;
      }
      return;
    }
    var answerCount := state.head.answerCount;
    queries := queries + [UpsertResult(resultId.value, state.head.typebotId, ResultCompleted(reply, answerCount),
                                       answerCount > 0, session.id)];
    writes := writes + [Transaction(queries)];
  }

  /** Every query the save issues. */
  function AllQueries(writes: seq<Write>): seq<Query>
    decreases |writes|
  {
    if writes == [] then []
    else AllQueries(writes[..|writes| - 1]) + (if writes[|writes| - 1].Transaction? then writes[|writes| - 1].queries else [])
  }

  lemma AllQueriesOfOne(w: Write)
    ensures AllQueries([w]) == (if w.Transaction? then w.queries else [])
  {
    assert [w][..0] == [];
  }

  lemma AllQueriesOfTwo(u: Write, w: Write)
    requires u.UpsertSession?
    ensures AllQueries([u, w]) == (if w.Transaction? then w.queries else [])
  {
    assert [u, w][..1] == [u];
    AllQueriesOfOne(u);
  }

  /** An existing session is updated exactly once and never deleted, complete or not, and
    * gets no upsert; the returned session keeps its id. */
  lemma ExistingSessionIsUpdatedNotDeleted(id: string, state: SessionState, reply: Reply, upsertedId: string)
    ensures var r := SaveStatePlan(SessionId(Existing, id), state, reply, upsertedId);
            && r.session.id == id
            && |r.writes| == 1 && r.writes[0].Transaction?
            && r.writes[0].queries[0] == UpdateSession(id, state, reply.isWaitingForExternalEvent == Some(true))
            && forall q :: q in AllQueries(r.writes) ==> !q.DeleteSession? && (q.UpdateSession? ==> q == r.writes[0].queries[0])
  {
    var r := SaveStatePlan(SessionId(Existing, id), state, reply, upsertedId);
    var update := UpdateSession(id, state, reply.isWaitingForExternalEvent == Some(true));
    if !Truthy(state.head.resultId) {
      NoResultExistingRunsOnlyTheUpdate(id, state, reply, upsertedId);
      TransactionLeadsWithUpdate(r.writes, [update], update);
    } else {
      var result := ResultExistingRunsUpdateAndResult(id, state, reply, upsertedId);
      TransactionLeadsWithUpdate(r.writes, [update, result], update);
    }
  }

  /** With a result an existing session's save is one transaction: its update, then the
    * result's upsert. */
  lemma ResultExistingRunsUpdateAndResult(id: string, state: SessionState, reply: Reply, upsertedId: string)
    returns (result: Query)
    requires Truthy(state.head.resultId)
    ensures result.UpsertResult?
    ensures SaveStatePlan(SessionId(Existing, id), state, reply, upsertedId).writes
              == [Transaction([UpdateSession(id, state, reply.isWaitingForExternalEvent == Some(true)), result])]
  {
    var update := UpdateSession(id, state, reply.isWaitingForExternalEvent == Some(true));
    result := UpsertResult(state.head.resultId.value, state.head.typebotId,
                           ResultCompleted(reply, state.head.answerCount), state.head.answerCount > 0, id);
    assert [update] + [result] == [update, result];
  }

  /** A single transaction that starts with an update and holds no deletion and no other
    * update keeps those facts across the queries of all writes. */
  lemma TransactionLeadsWithUpdate(writes: seq<Write>, queries: seq<Query>, update: Query)
    requires writes == [Transaction(queries)] && |queries| >= 1 && queries[0] == update && update.UpdateSession?
    requires forall q :: q in queries ==> q == update || q.UpsertResult?
    ensures |writes| == 1 && writes[0].Transaction? && writes[0].queries[0] == update
    ensures forall q :: q in AllQueries(writes) ==> !q.DeleteSession? && (q.UpdateSession? ==> q == update)
  {
    AllQueriesOfOne(Transaction(queries));
  }

  /** A new session is upserted directly, before any transaction, and never updated or
    * deleted. */
  lemma NewSessionIsUpsertedNotUpdated(id: string, state: SessionState, reply: Reply, upsertedId: string)
    ensures var r := SaveStatePlan(SessionId(New, id), state, reply, upsertedId);
            && r.writes[0] == UpsertSession(id, state, reply.isWaitingForExternalEvent == Some(true))
            && (forall i :: 1 <= i < |r.writes| ==> r.writes[i].Transaction?)
            && forall q :: q in AllQueries(r.writes) ==> q.UpsertResult?
  {
    var w := UpsertSession(id, state, reply.isWaitingForExternalEvent == Some(true));
    if !Truthy(state.head.resultId) {
      NoResultNewRunsNoTransaction(id, state, reply, upsertedId);
      AllQueriesOfOne(w);
    } else {
      var result := UpsertResult(state.head.resultId.value, state.head.typebotId,
                                 ResultCompleted(reply, state.head.answerCount), state.head.answerCount > 0, upsertedId);
      assert [] + [result] == [result];
      AllQueriesOfTwo(w, Transaction([result]));
    }
  }

  /** Without a result an existing session's save is the one transaction of its update. */
  lemma NoResultExistingRunsOnlyTheUpdate(id: string, state: SessionState, reply: Reply, upsertedId: string)
    requires !Truthy(state.head.resultId)
    ensures SaveStatePlan(SessionId(Existing, id), state, reply, upsertedId).writes
              == [Transaction([UpdateSession(id, state, reply.isWaitingForExternalEvent == Some(true))])]
  {
  }

  /** Without a result a new session's save is its upsert alone: no query is pending, so no
    * transaction runs. */
  lemma NoResultNewRunsNoTransaction(id: string, state: SessionState, reply: Reply, upsertedId: string)
    requires !Truthy(state.head.resultId)
    ensures SaveStatePlan(SessionId(New, id), state, reply, upsertedId).writes
              == [UpsertSession(id, state, reply.isWaitingForExternalEvent == Some(true))]
  {
    var w := UpsertSession(id, state, reply.isWaitingForExternalEvent == Some(true));
    assert [w] + [] == [w];
  }

  /** With a result, the last query of the one transaction upserts it: started iff some
    * answer, complete iff no input, no dedicated-reply action and some answer, linked to the
    * saved session. */
  lemma ResultIsUpsertedLast(sessionId: SessionId, state: SessionState, reply: Reply, upsertedId: string)
    requires Truthy(state.head.resultId)
    ensures var r := SaveStatePlan(sessionId, state, reply, upsertedId);
            && r.writes[|r.writes| - 1].Transaction?
            && var qs := r.writes[|r.writes| - 1].queries;
            && |qs| >= 1
            && var q := qs[|qs| - 1];
            && q.UpsertResult?
            && q.resultId == state.head.resultId.value
            && (q.hasStarted <==> state.head.answerCount > 0)
            && (q.resultCompleted <==> !reply.hasInput && !ExpectsDedicatedReply(reply.clientSideActions)
                                       && state.head.answerCount > 0)
            && q.lastChatSessionId == r.session.id
  {
  }

  /** The two completion flags differ only in what each ignores: a complete result with no
    * external wait means a complete session, and a complete session with an answer means a
    * complete result. */
  lemma CompletionFlagsAgree(reply: Reply, answerCount: nat)
    ensures ResultCompleted(reply, answerCount) && reply.isWaitingForExternalEvent != Some(true) ==> IsCompleted(reply)
    ensures IsCompleted(reply) && answerCount > 0 ==> ResultCompleted(reply, answerCount)
    ensures answerCount == 0 ==> !ResultCompleted(reply, answerCount)
  {
  }
}
