/** The chat-history listing: a page of a workspace's chat sessions, newest first. The
  * limit must lie in 1..200; the caller must be a member of the workspace; three times the
  * limit sessions are read after the cursor, and the loop keeps, up to the limit, those whose
  * state parses and whose first queued typebot has a non-empty id and a non-empty name among
  * the workspace's typebots (and is the requested typebot, when one is given). A next cursor
  * is given when the page is full and more sessions were read than kept.
  *
  * The database is a parameter: the workspace's members, its typebots, and all sessions in
  * the order of their last update, newest first. */
module ChatSessions {
  import opened Text

  const MaxLimit: int := 200
  const DefaultLimit: int := 50

  /** The first typebot of a session's queue, as far as the listing reads it. */
  datatype QueuedTypebot = QueuedTypebot(typebotId: Option<string>, resultId: Option<string>)

  /** A stored session; `state` is `None` when the stored state does not parse, and the
    * parsed state holds the first entry of its typebot queue, if any. */
  datatype Session = Session(id: string, createdAt: int, updatedAt: int, state: Option<Option<QueuedTypebot>>)

  datatype Typebot = Typebot(id: string, workspaceId: string, name: string)

  datatype Summary = Summary(id: string, createdAt: int, updatedAt: int, typebotId: string, typebotName: string,
                             resultId: Option<string>)

  datatype Response =
    | Page(chatSessions: seq<Summary>, nextCursor: Option<string>)
    | BadRequest
    | NotFound

  /** The workspace's typebots (only the requested one, when an id is given) by id. */
  function TypebotNames(typebots: seq<Typebot>, workspaceId: string, typebotId: Option<string>): (m: map<string, string>)
    ensures forall id :: id in m ==> exists i :: 0 <= i < |typebots| && typebots[i].id == id
                                       && typebots[i].workspaceId == workspaceId && typebots[i].name == m[id]
                                       && (Truthy(typebotId) ==> id == typebotId.value)
    decreases |typebots|
  {
    if typebots == [] then map[]
    else
      var m := TypebotNames(typebots[..|typebots| - 1], workspaceId, typebotId);
      var t := typebots[|typebots| - 1];
      if t.workspaceId == workspaceId && (Truthy(typebotId) ==> t.id == typebotId.value) then m[t.id := t.name] else m
  }

  /** The summary of a session the listing keeps, or `None` for one it skips. */
  function SummaryOf(s: Session, names: map<string, string>): (r: Option<Summary>)
    ensures r.Some? <==> && s.state.Some? && s.state.value.Some?
                         && Truthy(s.state.value.value.typebotId)
                         && s.state.value.value.typebotId.value in names
                         && names[s.state.value.value.typebotId.value] != ""
    ensures r.Some? ==> r.value.id == s.id && r.value.typebotId in names
                        && r.value.typebotName == names[r.value.typebotId]
  {
    if s.state.None? || s.state.value.None? then None
    else
      var q := s.state.value.value;
      if !Truthy(q.typebotId) then None
      else if q.typebotId.value !in names || names[q.typebotId.value] == "" then None
      else Some(Summary(s.id, s.createdAt, s.updatedAt, q.typebotId.value, names[q.typebotId.value], q.resultId))
  }

  /** The summaries of every session the listing would keep, in order. */
  function KeptSummaries(sessions: seq<Session>, names: map<string, string>): (r: seq<Summary>)
    ensures |r| <= |sessions|
    decreases |sessions|
  {
    if sessions == [] then []
    else
      var rest := KeptSummaries(sessions[..|sessions| - 1], names);
      var s := SummaryOf(sessions[|sessions| - 1], names);
      if s.Some? then rest + [s.value] else rest
  }

  /** The summaries of a prefix are a prefix of the summaries. */
  lemma {:induction false} KeptSummariesPrefix(sessions: seq<Session>, names: map<string, string>, n: nat)
    requires n <= |sessions|
    ensures var p, all := KeptSummaries(sessions[..n], names), KeptSummaries(sessions, names);
            |p| <= |all| && p == all[..|p|]
    decreases |sessions|
  {
    if n < |sessions| {
      KeptSummariesPrefix(sessions[..|sessions| - 1], names, n);
      assert sessions[..|sessions| - 1][..n] == sessions[..n];
    } else {
      assert sessions[..n] == sessions;
    }
  }

  /** `x` is the summary of one of `sessions`. */
  predicate FromSession(sessions: seq<Session>, names: map<string, string>, x: Summary)
  {
    exists i :: 0 <= i < |sessions| && SummaryOf(sessions[i], names) == Some(x)
  }

  /** Every kept summary comes from a read session and names a typebot of the map. */
  lemma {:induction false} KeptSummariesAreValid(sessions: seq<Session>, names: map<string, string>)
    ensures forall k :: 0 <= k < |KeptSummaries(sessions, names)| ==>
              && KeptSummaries(sessions, names)[k].typebotId in names
              && KeptSummaries(sessions, names)[k].typebotName == names[KeptSummaries(sessions, names)[k].typebotId]
              && KeptSummaries(sessions, names)[k].typebotName != ""
              && FromSession(sessions, names, KeptSummaries(sessions, names)[k])
    decreases |sessions|
  {
    if sessions != [] {
      var init := sessions[..|sessions| - 1];
      KeptSummariesAreValid(init, names);
      var r := KeptSummaries(sessions, names);
      var ri := KeptSummaries(init, names);
      forall k | 0 <= k < |r|
        ensures FromSession(sessions, names, r[k])
      {
        if k < |ri| {
          assert r[k] == ri[k];
          assert FromSession(init, names, ri[k]);
          var i :| 0 <= i < |init| && SummaryOf(init[i], names) == Some(ri[k]);
          assert sessions[i] == init[i];
        } else {
          assert SummaryOf(sessions[|sessions| - 1], names) == Some(r[k]);
        }
      }
    }
  }

  /** `l ++ r` keeps what `l` keeps, then what `r` keeps: the listing never reorders. */
  lemma {:induction false} KeptSummariesAppend(l: seq<Session>, r: seq<Session>, names: map<string, string>)
    ensures KeptSummaries(l + r, names) == KeptSummaries(l, names) + KeptSummaries(r, names)
    decreases |r|
  {
    if r == [] {
      assert l + r == l;
    } else {
      var init, last := r[..|r| - 1], r[|r| - 1];
      assert l + r == (l + init) + [last];
      KeptSummariesAppend(l, init, names);
      KeptSummariesSnoc(l + init, last, names);
    }
  }

  lemma KeptSummariesSnoc(sessions: seq<Session>, last: Session, names: map<string, string>)
    ensures KeptSummaries(sessions + [last], names)
            == KeptSummaries(sessions, names) + (if SummaryOf(last, names).Some? then [SummaryOf(last, names).value] else [])
  {
    assert (sessions + [last])[..|sessions|] == sessions;
  }

  function Ids(sessions: seq<Session>): (r: seq<string>)
    ensures |r| == |sessions| && forall i :: 0 <= i < |r| ==> r[i] == sessions[i].id
  {
    seq(|sessions|, i requires 0 <= i < |sessions| => sessions[i].id)
  }

  /** The sessions read: up to `take` of them in order, from the start or, with a cursor,
    * from just after the first session that has the cursor's id (none when no session has
    * it). */
  function FetchPage(ordered: seq<Session>, cursor: Option<string>, take: nat): (r: seq<Session>)
    ensures |r| <= take
    ensures !Truthy(cursor) ==> r == FirstN(ordered, take)
    ensures Truthy(cursor) && cursor.value !in Ids(ordered) ==> r == []
    ensures Truthy(cursor) && cursor.value in Ids(ordered) ==>
              exists j :: 0 <= j < |ordered| && ordered[j].id == cursor.value && cursor.value !in Ids(ordered[..j])
                          && r == FirstN(ordered[j + 1..], take)
  {
    if !Truthy(cursor) then FirstN(ordered, take)
    else
      var ids := Ids(ordered);
      var at := IndexOf(ids, cursor.value);
      if at.None? then []
      else
        assert Ids(ordered[..at.value]) == ids[..at.value];
        FirstN(ordered[at.value + 1..], take)
  }

  /** With distinct ids the cursor page continues right after the cursor's session. */
  lemma CursorPageFollowsTheCursor(ordered: seq<Session>, j: nat, take: nat)
    requires j < |ordered| && ordered[j].id != "" && Distinct(Ids(ordered))
    ensures FetchPage(ordered, Some(ordered[j].id), take) == FirstN(ordered[j + 1..], take)
  {
    var ids := Ids(ordered);
    assert ids[j] == ordered[j].id;
    var at := IndexOf(ids, ordered[j].id);
    assert at.Some? && ids[at.value] == ids[j];
  }

  /** The page the loop builds: the first `limit` sessions it keeps. */
  function ListedSessions(fetched: seq<Session>, names: map<string, string>, limit: nat): (r: seq<Summary>)
    ensures |r| <= limit && |r| <= |KeptSummaries(fetched, names)| && r == KeptSummaries(fetched, names)[..|r|]
    ensures |r| < limit ==> r == KeptSummaries(fetched, names)
  {
    FirstN(KeptSummaries(fetched, names), limit)
  }

  /** The loop over the read sessions: stop once `limit` are kept; skip a session whose
    * state does not parse, whose queue is empty or names no typebot, or whose typebot has no
    * name in the map; otherwise keep its summary. */
  method CollectValidSessions(fetched: seq<Session>, names: map<string, string>, limit: nat)
    returns (valid: seq<Summary>)
    ensures valid == ListedSessions(fetched, names, limit)
  {
    valid := [];
    var i := 0;
    while i < |fetched|
      invariant 0 <= i <= |fetched|
      invariant valid == FirstN(KeptSummaries(fetched[..i], names), limit)
    {
      if |valid| >= limit {
        break;
      }
      var session := fetched[i];
      assert valid == KeptSummaries(fetched[..i], names);
      assert fetched[..i + 1][..i] == fetched[..i] && fetched[..i + 1][i] == session;
      ghost var summary := SummaryOf(session, names);
      assert KeptSummaries(fetched[..i + 1], names) == if summary.Some? then valid + [summary.value] else valid;
      if session.state.None? {
        i := i + 1;
        continue;
      }
      var first := session.state.value;
      if first.None? || !Truthy(first.value.typebotId) {
        i := i + 1;
        continue;
      }
      var typebotId := first.value.typebotId.value;
      if typebotId !in names || names[typebotId] == "" {
        i := i + 1;
        continue;
      }
      valid := valid + [Summary(session.id, session.createdAt, session.updatedAt, typebotId, names[typebotId],
                                first.value.resultId)];
      i := i + 1;
    }
    KeptSummariesPrefix(fetched, names, i);
    if i == |fetched| {
      assert fetched[..i] == fetched;
    }
  }

  /** The next cursor: the last listed id, when the page is full and more sessions were read
    * than listed. */
  function NextCursor(listed: seq<Summary>, fetchedCount: nat, limit: nat): (r: Option<string>)
    ensures r.Some? <==> |listed| == limit && fetchedCount > |listed| && |listed| > 0
    ensures r.Some? ==> r.value == listed[|listed| - 1].id
  {
    if |listed| == limit && fetchedCount > |listed| && |listed| > 0 then Some(listed[|listed| - 1].id) else None
  }

  /** What the listing reads from the database. */
  datatype Database = Database(members: map<string, seq<string>>, typebots: seq<Typebot>, ordered: seq<Session>)

  datatype Request = Request(workspaceId: string, limit: Option<int>, cursor: Option<string>, typebotId: Option<string>)

  predicate IsMember(db: Database, workspaceId: string, userId: string)
  {
    workspaceId in db.members && userId in db.members[workspaceId]
  }

  /** `getChatSessions`: a limit outside 1..200 is a bad request (50 when none is given); a
    * missing workspace, or one the user is not a member of, is not found; otherwise the page
    * of at most `limit` kept sessions out of at most `3 * limit` read, with the next cursor. */
  function GetChatSessions(db: Database, userId: string, req: Request): (r: Response)
    ensures var limit := if req.limit.Some? then req.limit.value else DefaultLimit;
            && (r.BadRequest? <==> limit < 1 || limit > MaxLimit)
            && (r.NotFound? <==> 1 <= limit <= MaxLimit && !IsMember(db, req.workspaceId, userId))
            && (r.Page? ==>
                  var names := TypebotNames(db.typebots, req.workspaceId, req.typebotId);
                  var fetched := FetchPage(db.ordered, req.cursor, 3 * limit);
                  && |r.chatSessions| <= limit && |r.chatSessions| <= |KeptSummaries(fetched, names)|
                  && r.chatSessions == KeptSummaries(fetched, names)[..|r.chatSessions|]
                  && (r.nextCursor.Some? <==> |r.chatSessions| == limit && |fetched| > limit)
                  && (r.nextCursor.Some? ==> r.nextCursor.value == r.chatSessions[limit - 1].id))
  {
    var limit := if req.limit.Some? then req.limit.value else DefaultLimit;
    if limit < 1 || limit > MaxLimit then BadRequest
    else if !IsMember(db, req.workspaceId, userId) then NotFound
    else
      var names := TypebotNames(db.typebots, req.workspaceId, req.typebotId);
      var fetched := FetchPage(db.ordered, req.cursor, 3 * limit);
      var listed := ListedSessions(fetched, names, limit);
      Page(listed, NextCursor(listed, |fetched|, limit))
  }

  /** The handler: the checks, the reads, and the loop. */
  method HandleGetChatSessions(db: Database, userId: string, req: Request) returns (r: Response)
    ensures r == GetChatSessions(db, userId, req)
  {
    var limit := if req.limit.Some? then req.limit.value else DefaultLimit;
    if limit < 1 || limit > MaxLimit {
      return BadRequest;
    }
    if !IsMember(db, req.workspaceId, userId) {
      return NotFound;
    }
    var names := TypebotNames(db.typebots, req.workspaceId, req.typebotId);
    var fetched := FetchPage(db.ordered, req.cursor, 3 * limit);
    var listed := CollectValidSessions(fetched, names, limit);
    assert listed == ListedSessions(fetched, names, limit);
    r := Page(listed, NextCursor(listed, |fetched|, limit));
  }

  /** Every listed session names a typebot of the workspace (the requested one, when given)
    * by its non-empty name, and comes from a session that was read. */
  lemma ListedSessionsAreValid(db: Database, userId: string, req: Request)
    requires GetChatSessions(db, userId, req).Page?
    ensures var r := GetChatSessions(db, userId, req);
            var limit := if req.limit.Some? then req.limit.value else DefaultLimit;
            var fetched := FetchPage(db.ordered, req.cursor, 3 * limit);
            forall k :: 0 <= k < |r.chatSessions| ==>
              var s := r.chatSessions[k];
              && s.typebotName != ""
              && (exists i :: 0 <= i < |db.typebots| && db.typebots[i].id == s.typebotId
                              && db.typebots[i].workspaceId == req.workspaceId && db.typebots[i].name == s.typebotName)
              && (Truthy(req.typebotId) ==> s.typebotId == req.typebotId.value)
              && exists i :: 0 <= i < |fetched| && fetched[i].id == s.id
  {
    var r := GetChatSessions(db, userId, req);
    var limit := if req.limit.Some? then req.limit.value else DefaultLimit;
    var names := TypebotNames(db.typebots, req.workspaceId, req.typebotId);
    var fetched := FetchPage(db.ordered, req.cursor, 3 * limit);
    KeptSummariesAreValid(fetched, names);
    var all := KeptSummaries(fetched, names);
    assert r.chatSessions == ListedSessions(fetched, names, limit);
    forall k | 0 <= k < |r.chatSessions|
      ensures var s := r.chatSessions[k];
              && s.typebotName != ""
              && (exists i :: 0 <= i < |db.typebots| && db.typebots[i].id == s.typebotId
                              && db.typebots[i].workspaceId == req.workspaceId && db.typebots[i].name == s.typebotName)
              && (Truthy(req.typebotId) ==> s.typebotId == req.typebotId.value)
              && exists i :: 0 <= i < |fetched| && fetched[i].id == s.id
    {
      var s := all[k];
      assert r.chatSessions[k] == s;
      assert s.typebotId in names && s.typebotName == names[s.typebotId];
      var j :| 0 <= j < |db.typebots| && db.typebots[j].id == s.typebotId
               && db.typebots[j].workspaceId == req.workspaceId && db.typebots[j].name == names[s.typebotId]
               && (Truthy(req.typebotId) ==> s.typebotId == req.typebotId.value);
      assert FromSession(fetched, names, s);
      var i :| 0 <= i < |fetched| && SummaryOf(fetched[i], names) == Some(s);
      assert fetched[i].id == s.id;
    }
  }

  /** The next cursor can be missing although more sessions would be listed: when more than
    * two thirds of the read sessions are skipped, the page comes back short and without a
    * cursor. With a limit of 1, three unparsable sessions followed by a listable one give an
    * empty page and no cursor. */
  lemma SkippedSessionsEndThePagination(db: Database, userId: string, req: Request, bad: Session, good: Session)
    requires req.limit == Some(1) && !Truthy(req.cursor) && IsMember(db, req.workspaceId, userId)
    requires bad.state.None?
    requires SummaryOf(good, TypebotNames(db.typebots, req.workspaceId, req.typebotId)).Some?
    requires db.ordered == [bad, bad, bad, good]
    ensures GetChatSessions(db, userId, req) == Page([], None)
    ensures KeptSummaries(db.ordered, TypebotNames(db.typebots, req.workspaceId, req.typebotId)) != []
  {
    var names := TypebotNames(db.typebots, req.workspaceId, req.typebotId);
    var fetched := FetchPage(db.ordered, req.cursor, 3);
    assert fetched == [bad, bad, bad];
    assert KeptSummaries([bad], names) == [] by {
      assert [bad][..0] == [];
    }
    assert KeptSummaries([bad, bad], names) == [] by {
      assert [bad, bad][..1] == [bad];
    }
    assert KeptSummaries(fetched, names) == [] by {
      assert [bad, bad, bad][..2] == [bad, bad];
    }
    assert db.ordered[..3] == fetched;
    assert KeptSummaries(db.ordered, names) == KeptSummaries(fetched, names) + [SummaryOf(good, names).value];
  }

  /** How many read sessions the loop looks at, from the `i`-th on: it stops at the first
    * position where `limit` sessions are kept, or at the end. */
  function Examined(fetched: seq<Session>, names: map<string, string>, limit: nat, i: nat): (e: nat)
    requires i <= |fetched|
    ensures i <= e <= |fetched|
    decreases |fetched| - i
  {
    if i == |fetched| || |KeptSummaries(fetched[..i], names)| >= limit then i
    else Examined(fetched, names, limit, i + 1)
  }

  /** The page is what the loop keeps of the sessions it looked at, and when it stops early
    * the page is full. */
  lemma {:induction false} ExaminedSessionsMakeThePage(fetched: seq<Session>, names: map<string, string>, limit: nat,
                                                       i: nat)
    requires i <= |fetched| && |KeptSummaries(fetched[..i], names)| <= limit
    ensures var e := Examined(fetched, names, limit, i);
            && ListedSessions(fetched, names, limit) == KeptSummaries(fetched[..e], names)
            && (e < |fetched| ==> |KeptSummaries(fetched[..e], names)| == limit)
    decreases |fetched| - i
  {
    var p := KeptSummaries(fetched[..i], names);
    if i == |fetched| {
      assert fetched[..i] == fetched;
    } else if |p| >= limit {
      KeptSummariesPrefix(fetched, names, i);
    } else {
      assert fetched[..i + 1] == fetched[..i] + [fetched[i]];
      KeptSummariesSnoc(fetched[..i], fetched[i], names);
      ExaminedSessionsMakeThePage(fetched, names, limit, i + 1);
    }
  }

  /** The next cursor the pagination needs: the last session the loop looked at, whenever
    * sessions may remain after it, because the loop stopped early or the read was full. */
  function NextCursorAfterExamined(fetched: seq<Session>, take: nat, e: nat): Option<string>
    requires e <= |fetched|
  {
    if e > 0 && (e < |fetched| || |fetched| == take) then Some(fetched[e - 1].id) else None
  }

  /** With that cursor pagination skips nothing: of the sessions after the request's cursor,
    * the page keeps exactly what the listing keeps up to the new cursor, the next page starts
    * right after it, and without a new cursor no listable session remains. */
  lemma {:induction false} CursorAfterExaminedMissesNothing(remaining: seq<Session>, names: map<string, string>,
                                                            limit: nat, take: nat)
    requires 1 <= limit <= take
    ensures var fetched := FirstN(remaining, take);
            var e := Examined(fetched, names, limit, 0);
            var listed := ListedSessions(fetched, names, limit);
            var cursor := NextCursorAfterExamined(fetched, take, e);
            && KeptSummaries(remaining, names) == listed + KeptSummaries(remaining[e..], names)
            && (cursor.Some? ==> 0 < e && cursor.value == remaining[e - 1].id)
            && (cursor.None? ==> KeptSummaries(remaining[e..], names) == [])
  {
    var fetched := FirstN(remaining, take);
    var e := Examined(fetched, names, limit, 0);
    assert fetched[..0] == [];
    ExaminedSessionsMakeThePage(fetched, names, limit, 0);
    assert fetched[..e] == remaining[..e];
    assert remaining == remaining[..e] + remaining[e..];
    KeptSummariesAppend(remaining[..e], remaining[e..], names);
    if NextCursorAfterExamined(fetched, take, e).None? {
      assert remaining[e..] == [];
    }
  }
}
