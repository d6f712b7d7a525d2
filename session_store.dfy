/** The session-memory store: the `sessions`, `messages`, `decisions` and `session_tags`
    tables as sequences of rows in rowid order, each with its AUTOINCREMENT counter, and the
    cached current session id. Clock readings are integer seconds passed in as `now`. */
module SessionStore {
  import opened Wrappers
  import opened Collections
  import opened Sorting
  import opened JsonValues
  import Strings

  const ResumeWindowSeconds: int := 30 * 60

  datatype Session = Session(
    id: nat, startTime: int, endTime: Option<int>, status: string, summary: Option<string>,
    messageCount: int, totalTokens: int)

  /** A `messages` row; `metadata` is stored only when the supplied dict is truthy. */
  datatype Message = Message(
    id: nat, sessionId: int, role: string, content: string, timestamp: int, tokens: int,
    metadata: Option<Object>)

  datatype Decision = Decision(id: nat, sessionId: int, decision: string, context: Option<string>, timestamp: int)

  datatype Tag = Tag(id: nat, sessionId: int, tag: string, value: string)

  datatype Db = Db(
    sessions: seq<Session>, messages: seq<Message>, decisions: seq<Decision>, tags: seq<Tag>,
    sessionSeq: nat, messageSeq: nat, decisionSeq: nat, tagSeq: nat)

  /** `get_session_info`: the row's columns and its tags. */
  datatype Info = Info(session: Session, tags: Dict<string, string>)

  /** `get_stats`; the average is unrounded. */
  datatype Stats = Stats(totalSessions: nat, activeSessions: nat, totalMessages: int, totalTokens: int, avgMessages: real)

  /** Ids are positive, increasing in rowid order and at most the table's counter. */
  predicate SessionsValid(ss: seq<Session>, counter: nat)
  {
    && (forall i :: 0 <= i < |ss| ==> 0 < ss[i].id <= counter)
    && (forall i, j :: 0 <= i < j < |ss| ==> ss[i].id < ss[j].id)
  }

  predicate MessagesValid(ms: seq<Message>, counter: nat)
  {
    && (forall i :: 0 <= i < |ms| ==> 0 < ms[i].id <= counter)
    && (forall i, j :: 0 <= i < j < |ms| ==> ms[i].id < ms[j].id)
  }

  predicate DecisionsValid(ds: seq<Decision>, counter: nat)
  {
    && (forall i :: 0 <= i < |ds| ==> 0 < ds[i].id <= counter)
    && (forall i, j :: 0 <= i < j < |ds| ==> ds[i].id < ds[j].id)
  }

  /** Tag rows also only refer to sessions already created and never repeat a tag for one
      session. */
  predicate TagsValid(ts: seq<Tag>, counter: nat, sessionCounter: nat)
  {
    && (forall i :: 0 <= i < |ts| ==> 0 < ts[i].id <= counter && ts[i].sessionId <= sessionCounter)
    && (forall i, j :: 0 <= i < j < |ts| ==>
          ts[i].id < ts[j].id && (ts[i].sessionId != ts[j].sessionId || ts[i].tag != ts[j].tag))
  }

  /** Every table is valid against its counter. */
  predicate ValidDb(db: Db)
  {
    && SessionsValid(db.sessions, db.sessionSeq)
    && MessagesValid(db.messages, db.messageSeq)
    && DecisionsValid(db.decisions, db.decisionSeq)
    && TagsValid(db.tags, db.tagSeq, db.sessionSeq)
  }

  lemma SessionAppended(ss: seq<Session>, counter: nat, s: Session)
    requires SessionsValid(ss, counter) && s.id == counter + 1
    ensures SessionsValid(ss + [s], counter + 1)
  {
  }

  lemma MessageAppended(ms: seq<Message>, counter: nat, m: Message)
    requires MessagesValid(ms, counter) && m.id == counter + 1
    ensures MessagesValid(ms + [m], counter + 1)
  {
  }

  lemma DecisionAppended(ds: seq<Decision>, counter: nat, d: Decision)
    requires DecisionsValid(ds, counter) && d.id == counter + 1
    ensures DecisionsValid(ds + [d], counter + 1)
  {
  }

  /** Rewriting rows without touching their ids keeps the session table valid. */
  lemma SessionsSameIds(ss: seq<Session>, r: seq<Session>, counter: nat)
    requires SessionsValid(ss, counter) && |r| == |ss| && forall i :: 0 <= i < |ss| ==> r[i].id == ss[i].id
    ensures SessionsValid(r, counter)
  {
  }

  function EmptyDb(): (db: Db)
    ensures ValidDb(db)
  {
    Db([], [], [], [], 0, 0, 0, 0)
  }

  /** Session creation. */

  /** The tag rows `create_session` inserts for session `sid`, one per dict entry. */
  function TagRows(start: nat, sid: nat, tags: Dict<string, string>): (rows: seq<Tag>)
    ensures |rows| == |tags|
    ensures forall i :: 0 <= i < |tags| ==> rows[i] == Tag(start + i + 1, sid, tags[i].0, tags[i].1)
  {
    seq(|tags|, i requires 0 <= i < |tags| => Tag(start + i + 1, sid, tags[i].0, tags[i].1))
  }

  /** `INSERT INTO sessions (start_time, status) VALUES (?, 'active')`. */
  function NewSession(db: Db, now: int): (r: (Db, nat))
  {
    var id := db.sessionSeq + 1;
    (db.(sessions := db.sessions + [Session(id, now, None, "active", None, 0, 0)], sessionSeq := id), id)
  }

  /** `create_session`: a new active session and one tag row per tag. */
  function CreateSessionDb(db: Db, now: int, tags: Dict<string, string>): (Db, nat)
  {
    var (d, id) := NewSession(db, now);
    (d.(tags := d.tags + TagRows(d.tagSeq, id, tags), tagSeq := d.tagSeq + |tags|), id)
  }

  /** A created session is fresh, active, unended and empty; its tags are exactly the given ones
      and the tables stay valid. */
  lemma CreatedSession(db: Db, now: int, tags: Dict<string, string>)
    requires ValidDb(db) && UniqueKeys(tags)
    ensures var (d, id) := CreateSessionDb(db, now, tags);
      && ValidDb(d)
      && (forall i :: 0 <= i < |db.sessions| ==> db.sessions[i].id != id)
      && d.sessions == db.sessions + [Session(id, now, None, "active", None, 0, 0)]
      && d.messages == db.messages && d.decisions == db.decisions
      && SessionTags(d.tags, id) == tags
  {
    CreatedValid(db, now, tags);
    CreatedTags(db, now, tags);
  }

  lemma CreatedValid(db: Db, now: int, tags: Dict<string, string>)
    requires ValidDb(db) && UniqueKeys(tags)
    ensures ValidDb(CreateSessionDb(db, now, tags).0)
  {
    SessionAppended(db.sessions, db.sessionSeq, Session(db.sessionSeq + 1, now, None, "active", None, 0, 0));
    TagRowsAppended(db.tags, db.tagSeq, db.sessionSeq, tags);
  }

  lemma CreatedTags(db: Db, now: int, tags: Dict<string, string>)
    requires ValidDb(db) && UniqueKeys(tags)
    ensures SessionTags(CreateSessionDb(db, now, tags).0.tags, db.sessionSeq + 1) == tags
  {
    var id := db.sessionSeq + 1;
    var rows := TagRows(db.tagSeq, id, tags);
    assert CreateSessionDb(db, now, tags).0.tags == db.tags + rows;
    forall i | 0 <= i < |db.tags| ensures db.tags[i].sessionId != id {
    }
    SessionTagsAppend(db.tags, rows, id);
    SessionTagsOwn(rows, tags, db.tagSeq, id);
  }

  /** The tag rows of a new session keep the tag table valid. */
  lemma TagRowsAppended(ts: seq<Tag>, counter: nat, sessionCounter: nat, tags: Dict<string, string>)
    requires TagsValid(ts, counter, sessionCounter) && UniqueKeys(tags)
    ensures TagsValid(ts + TagRows(counter, sessionCounter + 1, tags), counter + |tags|, sessionCounter + 1)
  {
    var rows := TagRows(counter, sessionCounter + 1, tags);
    var all := ts + rows;
    forall i | 0 <= i < |all| ensures 0 < all[i].id <= counter + |tags| && all[i].sessionId <= sessionCounter + 1 {
      if i >= |ts| {
        assert all[i] == rows[i - |ts|];
      }
    }
    forall i, j | 0 <= i < j < |all|
      ensures all[i].id < all[j].id && (all[i].sessionId != all[j].sessionId || all[i].tag != all[j].tag)
    {
      if j < |ts| {
        assert all[i] == ts[i] && all[j] == ts[j];
      } else if i < |ts| {
        assert all[i] == ts[i] && all[j] == rows[j - |ts|];
      } else {
        assert all[i] == rows[i - |ts|] && all[j] == rows[j - |ts|];
      }
    }
  }

  /** `{row[0]: row[1] for row in SELECT tag, value ... WHERE session_id = ?}`. */
  function SessionTags(ts: seq<Tag>, sid: int): Dict<string, string>
  {
    if |ts| == 0 then []
    else
      var p := SessionTags(ts[..|ts| - 1], sid);
      if ts[|ts| - 1].sessionId == sid then Put(p, ts[|ts| - 1].tag, ts[|ts| - 1].value) else p
  }

  lemma {:induction false} SessionTagsAppend(a: seq<Tag>, b: seq<Tag>, sid: int)
    requires forall i :: 0 <= i < |a| ==> a[i].sessionId != sid
    ensures SessionTags(a + b, sid) == SessionTags(b, sid)
    decreases |b|
  {
    if |b| == 0 {
      assert a + b == a;
      SessionTagsNone(a, sid);
    } else {
      var n := |b| - 1;
      assert (a + b)[..|a + b| - 1] == a + b[..n];
      SessionTagsAppend(a, b[..n], sid);
    }
  }

  lemma {:induction false} SessionTagsNone(a: seq<Tag>, sid: int)
    requires forall i :: 0 <= i < |a| ==> a[i].sessionId != sid
    ensures SessionTags(a, sid) == []
  {
    if |a| > 0 {
      SessionTagsNone(a[..|a| - 1], sid);
    }
  }

  /** The rows made from a dict with unique keys read back as that dict. */
  lemma {:induction false} SessionTagsOwn(rows: seq<Tag>, tags: Dict<string, string>, start: nat, sid: nat)
    requires UniqueKeys(tags) && rows == TagRows(start, sid, tags)
    ensures SessionTags(rows, sid) == tags
    decreases |tags|
  {
    if |tags| > 0 {
      var n := |tags| - 1;
      var pt := tags[..n];
      assert UniqueKeys(pt);
      assert rows[..n] == TagRows(start, sid, pt);
      SessionTagsOwn(rows[..n], pt, start, sid);
      assert !HasKey(pt, tags[n].0);
      assert tags == pt + [(tags[n].0, tags[n].1)];
    }
  }

  /** Resuming a session. */

  function StartKey(s: Session): real { s.startTime as real }

  predicate Resumable(s: Session, cutoff: int)
  {
    s.status == "active" && s.startTime > cutoff
  }

  /** `SELECT id FROM sessions WHERE status = 'active' AND start_time > ? ORDER BY start_time
      DESC LIMIT 1`; among equal start times the earliest row. */
  function LatestActive(ss: seq<Session>, cutoff: int): Option<Session>
  {
    var cs := Filter(ss, (s: Session) => Resumable(s, cutoff));
    if |cs| == 0 then None else Some(SortDesc(cs, StartKey)[0])
  }

  /** The resumed session is an active session started after the cutoff, none started later;
      there is none exactly when no session qualifies. */
  lemma LatestActiveProps(ss: seq<Session>, cutoff: int)
    ensures LatestActive(ss, cutoff).None? <==> forall i :: 0 <= i < |ss| ==> !Resumable(ss[i], cutoff)
    ensures LatestActive(ss, cutoff).Some? ==>
      var s := LatestActive(ss, cutoff).value;
      && s in ss && Resumable(s, cutoff)
      && forall i :: 0 <= i < |ss| && Resumable(ss[i], cutoff) ==> ss[i].startTime <= s.startTime
  {
    var p := (s: Session) => Resumable(s, cutoff);
    var cs := Filter(ss, p);
    if |cs| == 0 {
      assert forall i :: 0 <= i < |ss| ==> !p(ss[i]);
    } else {
      var sorted := SortDesc(cs, StartKey);
      SortDescSorted(cs, StartKey);
      assert sorted[0] in multiset(cs);
      forall i | 0 <= i < |ss| && Resumable(ss[i], cutoff) ensures ss[i].startTime <= sorted[0].startTime {
        assert ss[i] in cs;
        assert ss[i] in multiset(sorted);
        var k :| 0 <= k < |sorted| && sorted[k] == ss[i];
        if k > 0 {
          assert StartKey(sorted[0]) >= StartKey(sorted[k]);
        }
      }
    }
  }

  /** Messages and decisions. */

  /** `UPDATE sessions SET message_count = message_count + 1, total_tokens = total_tokens + ?
      WHERE id = ?`. */
  function Bump(ss: seq<Session>, sid: int, tokens: int): (r: seq<Session>)
    ensures |r| == |ss|
    ensures forall i :: 0 <= i < |ss| ==>
      r[i] == (if ss[i].id == sid then ss[i].(messageCount := ss[i].messageCount + 1, totalTokens := ss[i].totalTokens + tokens)
               else ss[i])
  {
    seq(|ss|, i requires 0 <= i < |ss| =>
      if ss[i].id == sid then ss[i].(messageCount := ss[i].messageCount + 1, totalTokens := ss[i].totalTokens + tokens)
      else ss[i])
  }

  /** `json.dumps(metadata) if metadata else None`. */
  function StoredMetadata(metadata: Object): Option<Object>
  {
    if |metadata| == 0 then None else Some(metadata)
  }

  /** `log_message` once the session id is known. */
  function LogMessageDb(db: Db, sid: int, role: string, content: string, tokens: int, metadata: Object, now: int): (Db, nat)
  {
    var id := db.messageSeq + 1;
    (db.(messages := db.messages + [Message(id, sid, role, content, now, tokens, StoredMetadata(metadata))],
         messageSeq := id,
         sessions := Bump(db.sessions, sid, tokens)), id)
  }

  /** One message row is added; only the session with that id has its counters moved, by one
      message and `tokens` tokens; nothing else changes. An id with no session row still gets
      the message, as the foreign key is not enforced. */
  lemma MessageLogged(db: Db, sid: int, role: string, content: string, tokens: int, metadata: Object, now: int)
    requires ValidDb(db)
    ensures var (d, id) := LogMessageDb(db, sid, role, content, tokens, metadata, now);
      && ValidDb(d)
      && d.messages == db.messages + [Message(id, sid, role, content, now, tokens, StoredMetadata(metadata))]
      && (forall i :: 0 <= i < |db.messages| ==> db.messages[i].id < id)
      && |d.sessions| == |db.sessions|
      && (forall i :: 0 <= i < |db.sessions| && db.sessions[i].id != sid ==> d.sessions[i] == db.sessions[i])
      && (forall i :: 0 <= i < |db.sessions| && db.sessions[i].id == sid ==>
            && d.sessions[i].messageCount == db.sessions[i].messageCount + 1
            && d.sessions[i].totalTokens == db.sessions[i].totalTokens + tokens
            && d.sessions[i].status == db.sessions[i].status)
      && d.decisions == db.decisions && d.tags == db.tags
  {
    var id := db.messageSeq + 1;
    MessageAppended(db.messages, db.messageSeq, Message(id, sid, role, content, now, tokens, StoredMetadata(metadata)));
    SessionsSameIds(db.sessions, Bump(db.sessions, sid, tokens), db.sessionSeq);
  }

  function LogDecisionDb(db: Db, sid: int, decision: string, context: Option<string>, now: int): (Db, nat)
  {
    var id := db.decisionSeq + 1;
    (db.(decisions := db.decisions + [Decision(id, sid, decision, context, now)], decisionSeq := id), id)
  }

  function TimeKey(m: Message): real { m.timestamp as real }

  /** `if limit: ... LIMIT ?`: a falsy limit means all rows, a negative one too. */
  function OptLimit<T>(s: seq<T>, limit: Option<int>): (r: seq<T>)
    ensures |r| <= |s| && r == s[..|r|]
  {
    if limit.Some? && limit.value != 0 then SqlLimit(s, limit.value) else s
  }

  /** The rows `get_session_messages` selects for session `sid`. */
  function SessionMessages(ms: seq<Message>, sid: int, limit: Option<int>, role: Option<string>): seq<Message>
  {
    var mine := Filter(ms, (m: Message) => m.sessionId == sid && (role.None? || role.value == "" || m.role == role.value));
    OptLimit(SortDesc(mine, TimeKey), limit)
  }

  /** Only the session's messages, only with the role when one is given, newest first, and at
      most `limit` of them for a positive limit. */
  lemma SessionMessagesProps(ms: seq<Message>, sid: int, limit: Option<int>, role: Option<string>)
    ensures var r := SessionMessages(ms, sid, limit, role);
      && (forall i :: 0 <= i < |r| ==> r[i] in ms && r[i].sessionId == sid)
      && (role.Some? && role.value != "" ==> forall i :: 0 <= i < |r| ==> r[i].role == role.value)
      && (forall i, j :: 0 <= i < j < |r| ==> r[i].timestamp >= r[j].timestamp)
      && (limit.Some? && limit.value > 0 ==> |r| <= limit.value)
  {
    var p := (m: Message) => m.sessionId == sid && (role.None? || role.value == "" || m.role == role.value);
    var mine := Filter(ms, p);
    var sorted := SortDesc(mine, TimeKey);
    SortDescSorted(mine, TimeKey);
    var r := SessionMessages(ms, sid, limit, role);
    forall i | 0 <= i < |r| ensures r[i] in ms && p(r[i]) {
      assert r[i] == sorted[i];
      assert sorted[i] in multiset(mine);
    }
    forall i, j | 0 <= i < j < |r| ensures r[i].timestamp >= r[j].timestamp {
      assert TimeKey(sorted[i]) >= TimeKey(sorted[j]);
    }
  }

  /** Session info and search. */

  function FindSession(ss: seq<Session>, sid: int): (r: Option<Session>)
    ensures r.None? <==> forall i :: 0 <= i < |ss| ==> ss[i].id != sid
    ensures r.Some? ==> r.value in ss && r.value.id == sid
  {
    if |ss| == 0 then None
    else if ss[|ss| - 1].id == sid then Some(ss[|ss| - 1])
    else
      var r := FindSession(ss[..|ss| - 1], sid);
      assert forall i :: 0 <= i < |ss| - 1 ==> ss[..|ss| - 1][i] == ss[i];
      r
  }

  /** `get_session_info` for a known id: None for an unknown one. */
  function SessionInfo(db: Db, sid: int): (r: Option<Info>)
    ensures r.None? <==> forall i :: 0 <= i < |db.sessions| ==> db.sessions[i].id != sid
    ensures r.Some? ==> r.value.session.id == sid && r.value.session in db.sessions
  {
    match FindSession(db.sessions, sid)
    case None => None
    case Some(s) => Some(Info(s, SessionTags(db.tags, sid)))
  }

  /** A session mentions a term when one of its messages or decisions contains it. */
  predicate Mentions(db: Db, s: Session, term: string)
  {
    || (exists i :: 0 <= i < |db.messages| && db.messages[i].sessionId == s.id && Strings.LikeContains(db.messages[i].content, term))
    || (exists i :: 0 <= i < |db.decisions| && db.decisions[i].sessionId == s.id && Strings.LikeContains(db.decisions[i].decision, term))
  }

  predicate Tagged(db: Db, s: Session, tag: string)
  {
    exists i :: 0 <= i < |db.tags| && db.tags[i].sessionId == s.id && db.tags[i].tag == tag
  }

  /** The candidate sessions of `search_sessions`, before ordering: by text, else by tag, else all. */
  predicate Selected(db: Db, s: Session, query: Option<string>, tag: Option<string>)
  {
    if query.Some? && query.value != "" then Mentions(db, s, query.value)
    else if tag.Some? && tag.value != "" then Tagged(db, s, tag.value)
    else true
  }

  function SessionStartKey(s: Session): real { s.startTime as real }

  /** `search_sessions`: selected sessions, latest start first, at most `limit`. */
  function SearchSessionsDb(db: Db, query: Option<string>, tag: Option<string>, limit: int): seq<Session>
  {
    SqlLimit(SortDesc(Filter(db.sessions, (s: Session) => Selected(db, s, query, tag)), SessionStartKey), limit)
  }

  lemma SearchSessionsProps(db: Db, query: Option<string>, tag: Option<string>, limit: int)
    ensures var r := SearchSessionsDb(db, query, tag, limit);
      && (limit >= 0 ==> |r| <= limit)
      && (forall i :: 0 <= i < |r| ==> r[i] in db.sessions && Selected(db, r[i], query, tag))
      && (forall i, j :: 0 <= i < j < |r| ==> r[i].startTime >= r[j].startTime)
  {
    var p := (s: Session) => Selected(db, s, query, tag);
    var cs := Filter(db.sessions, p);
    var sorted := SortDesc(cs, SessionStartKey);
    SortDescSorted(cs, SessionStartKey);
    var r := SearchSessionsDb(db, query, tag, limit);
    forall i | 0 <= i < |r| ensures r[i] in db.sessions && p(r[i]) {
      assert r[i] == sorted[i];
      assert sorted[i] in multiset(cs);
    }
    forall i, j | 0 <= i < j < |r| ensures r[i].startTime >= r[j].startTime {
      assert SessionStartKey(sorted[i]) >= SessionStartKey(sorted[j]);
    }
  }

  /** Ending a session and statistics. */

  /** `UPDATE sessions SET end_time = ?, status = 'completed', summary = ? WHERE id = ?`. */
  function EndRow(ss: seq<Session>, sid: int, summary: Option<string>, now: int): (r: seq<Session>)
    ensures |r| == |ss|
    ensures forall i :: 0 <= i < |ss| ==>
      r[i] == (if ss[i].id == sid then ss[i].(endTime := Some(now), status := "completed", summary := summary) else ss[i])
  {
    seq(|ss|, i requires 0 <= i < |ss| =>
      if ss[i].id == sid then ss[i].(endTime := Some(now), status := "completed", summary := summary) else ss[i])
  }

  function CountActive(ss: seq<Session>): (n: nat)
    ensures n <= |ss|
  {
    if |ss| == 0 then 0 else CountActive(ss[..|ss| - 1]) + (if ss[|ss| - 1].status == "active" then 1 else 0)
  }

  function SumMessages(ss: seq<Session>): int
  {
    if |ss| == 0 then 0 else SumMessages(ss[..|ss| - 1]) + ss[|ss| - 1].messageCount
  }

  function SumTokens(ss: seq<Session>): int
  {
    if |ss| == 0 then 0 else SumTokens(ss[..|ss| - 1]) + ss[|ss| - 1].totalTokens
  }

  function StatsOf(db: Db): (st: Stats)
    ensures st.totalSessions == |db.sessions| && st.activeSessions <= st.totalSessions
    ensures |db.sessions| == 0 ==> st == Stats(0, 0, 0, 0, 0.0)
    ensures |db.sessions| > 0 ==> st.avgMessages * |db.sessions| as real == st.totalMessages as real
  {
    var n := |db.sessions|;
    Stats(n, CountActive(db.sessions), SumMessages(db.sessions), SumTokens(db.sessions),
          if n == 0 then 0.0 else SumMessages(db.sessions) as real / n as real)
  }

  /** Ending a session leaves one session fewer active when it was active, and the same count
      otherwise. */
  lemma {:induction false} EndCountsActive(ss: seq<Session>, sid: int, summary: Option<string>, now: int)
    requires forall i, j :: 0 <= i < j < |ss| ==> ss[i].id < ss[j].id
    ensures var s := FindSession(ss, sid);
      CountActive(EndRow(ss, sid, summary, now)) ==
        CountActive(ss) - (if s.Some? && s.value.status == "active" then 1 else 0)
  {
    if |ss| > 0 {
      var n := |ss| - 1;
      var p := ss[..n];
      EndRowPrefix(ss, sid, summary, now);
      EndCountsActive(p, sid, summary, now);
      if ss[n].id == sid {
        IdOnlyLast(ss, sid);
      }
    }
  }

  lemma EndRowPrefix(ss: seq<Session>, sid: int, summary: Option<string>, now: int)
    requires |ss| > 0
    ensures var e := EndRow(ss, sid, summary, now);
      && e[..|ss| - 1] == EndRow(ss[..|ss| - 1], sid, summary, now)
      && e[|ss| - 1].status == (if ss[|ss| - 1].id == sid then "completed" else ss[|ss| - 1].status)
  {
    assert EndRow(ss, sid, summary, now)[..|ss| - 1] == EndRow(ss[..|ss| - 1], sid, summary, now);
  }

  /** With increasing ids, the last row's id occurs nowhere before it. */
  lemma IdOnlyLast(ss: seq<Session>, sid: int)
    requires |ss| > 0 && ss[|ss| - 1].id == sid
    requires forall i, j :: 0 <= i < j < |ss| ==> ss[i].id < ss[j].id
    ensures FindSession(ss[..|ss| - 1], sid).None?
  {
    var p := ss[..|ss| - 1];
    assert forall i :: 0 <= i < |p| ==> p[i].id < sid;
  }

  /** Which session an operation without an explicit id uses: the cached current one, else the
      latest resumable one, else a newly created one. */
  function Resolve(db: Db, current: Option<nat>, now: int): (Db, nat)
  {
    if current.Some? then (db, current.value)
    else
      var found := LatestActive(db.sessions, now - ResumeWindowSeconds);
      if found.Some? then (db, found.value.id) else NewSession(db, now)
  }

  /** `get_or_create_active_session`: a cached id is returned with nothing changed; otherwise an
      existing active session started within the last 30 minutes, none of them later, is resumed
      with nothing changed; only when there is none is a fresh active session created, whose id
      no earlier session has. */
  lemma ResolveProps(db: Db, current: Option<nat>, now: int)
    requires ValidDb(db)
    ensures var (d, id) := Resolve(db, current, now);
      && ValidDb(d)
      && (current.Some? ==> d == db && id == current.value)
      && (current.None? && (exists i :: 0 <= i < |db.sessions| && Resumable(db.sessions[i], now - ResumeWindowSeconds)) ==>
            && d == db
            && (exists i :: 0 <= i < |db.sessions| && db.sessions[i].id == id && Resumable(db.sessions[i], now - ResumeWindowSeconds))
            && (forall i :: 0 <= i < |db.sessions| && Resumable(db.sessions[i], now - ResumeWindowSeconds) ==>
                  exists j :: 0 <= j < |db.sessions| && db.sessions[j].id == id && db.sessions[i].startTime <= db.sessions[j].startTime))
      && (current.None? && (forall i :: 0 <= i < |db.sessions| ==> !Resumable(db.sessions[i], now - ResumeWindowSeconds)) ==>
            && d.sessions == db.sessions + [Session(id, now, None, "active", None, 0, 0)]
            && (forall i :: 0 <= i < |db.sessions| ==> db.sessions[i].id < id))
  {
    var cutoff := now - ResumeWindowSeconds;
    LatestActiveProps(db.sessions, cutoff);
    CreatedSession(db, now, []);
    if current.None? && LatestActive(db.sessions, cutoff).Some? {
      var s := LatestActive(db.sessions, cutoff).value;
      var j :| 0 <= j < |db.sessions| && db.sessions[j] == s;
      assert db.sessions[j].id == s.id && Resumable(db.sessions[j], cutoff);
    }
  }

  /** Resolving keeps the tables well formed. */
  lemma ResolveValid(db: Db, current: Option<nat>, now: int)
    requires ValidDb(db)
    ensures ValidDb(Resolve(db, current, now).0)
  {
    ResolveProps(db, current, now);
  }

  /** The session an operation given `sessionId` acts on, and the tables once it is known. */
  function Target(db: Db, current: Option<nat>, sessionId: Option<int>, now: int): (Db, int)
  {
    if sessionId.Some? then (db, sessionId.value)
    else
      var (d, id) := Resolve(db, current, now);
      (d, id)
  }

  /** The cached id once `sessionId` has been resolved. */
  function CurrentAfter(db: Db, current: Option<nat>, sessionId: Option<int>, now: int): Option<nat>
  {
    if sessionId.Some? then current else Some(Resolve(db, current, now).1)
  }

  /** `end_session` on a known id: the row becomes completed with the end time and summary,
      every other row keeps its values, and the stored info reflects it. */
  lemma EndedSession(db: Db, sid: int, summary: Option<string>, now: int)
    requires ValidDb(db)
    ensures var d := db.(sessions := EndRow(db.sessions, sid, summary, now));
      && ValidDb(d)
      && (SessionInfo(d, sid).Some? <==> SessionInfo(db, sid).Some?)
      && (SessionInfo(d, sid).Some? ==>
            && SessionInfo(d, sid).value.session ==
                 SessionInfo(db, sid).value.session.(endTime := Some(now), status := "completed", summary := summary)
            && SessionInfo(d, sid).value.tags == SessionInfo(db, sid).value.tags)
      && (forall k :: k != sid ==> SessionInfo(d, k) == SessionInfo(db, k))
  {
    var ss := EndRow(db.sessions, sid, summary, now);
    SessionsSameIds(db.sessions, ss, db.sessionSeq);
    forall k ensures FindSession(ss, k) == (match FindSession(db.sessions, k)
        case None => None
        case Some(s) => Some(if k == sid then s.(endTime := Some(now), status := "completed", summary := summary) else s))
    {
      FindEndRow(db.sessions, sid, summary, now, k);
    }
  }

  lemma {:induction false} FindEndRow(ss: seq<Session>, sid: int, summary: Option<string>, now: int, k: int)
    ensures FindSession(EndRow(ss, sid, summary, now), k) == (match FindSession(ss, k)
        case None => None
        case Some(s) => Some(if k == sid then s.(endTime := Some(now), status := "completed", summary := summary) else s))
  {
    if |ss| > 0 {
      var n := |ss| - 1;
      var e, p := EndRow(ss, sid, summary, now), EndRow(ss[..n], sid, summary, now);
      forall i | 0 <= i < n ensures e[..n][i] == p[i] {
        assert ss[..n][i] == ss[i];
      }
      assert e[..n] == p;
      assert e[n].id == ss[n].id;
      FindEndRow(ss[..n], sid, summary, now, k);
    }
  }

  /** The tag inserts of `create_session`, one row per entry, numbered from the counter. */
  method InsertTags(start: nat, id: nat, tags: Dict<string, string>) returns (rows: seq<Tag>)
    ensures rows == TagRows(start, id, tags)
  {
    rows := [];
    for i := 0 to |tags|
      invariant rows == TagRows(start, id, tags[..i])
    {
      assert TagRows(start, id, tags[..i + 1]) == rows + [Tag(start + i + 1, id, tags[i].0, tags[i].1)];
      rows := rows + [Tag(start + i + 1, id, tags[i].0, tags[i].1)];
    }
    assert tags[..|tags|] == tags;
  }

  /** `SessionStore`: the tables and `_current_session_id`. */
  class SessionDatabase {
    var db: Db
    var current: Option<nat>

    ghost predicate Valid()
      reads this
    {
      ValidDb(db)
    }

    /** Opening keeps the tables already there; nothing is current yet. */
    constructor(existing: Db)
      requires ValidDb(existing)
      ensures Valid() && db == existing && current.None?
    {
      db := existing;
      current := None;
    }

    /** `create_session`: the tag inserts are a loop over the dict. */
    method CreateSession(tags: Dict<string, string>, now: int) returns (id: nat)
      requires Valid() && UniqueKeys(tags)
      modifies this
      ensures Valid()
      ensures (db, id) == CreateSessionDb(old(db), now, tags) && current == Some(id)
    {
      CreatedSession(db, now, tags);
      var created := NewSession(db, now);
      var d := created.0;
      id := created.1;
      var start := d.tagSeq;
      var rows := InsertTags(start, id, tags);
      db := d.(tags := d.tags + rows, tagSeq := start + |tags|);
      current := Some(id);
    }

    method GetOrCreateActiveSession(now: int) returns (id: nat)
      requires Valid()
      modifies this
      ensures Valid() && current == Some(id)
      ensures (db, id) == Resolve(old(db), old(current), now)
    {
      ResolveValid(db, current, now);
      if current.Some? {
        return current.value;
      }
      var found := LatestActive(db.sessions, now - ResumeWindowSeconds);
      if found.Some? {
        id := found.value.id;
      } else {
        var created := NewSession(db, now);
        db, id := created.0, created.1;
      }
      current := Some(id);
    }

    /** The session id a call uses: the given one, or the current or resumed one. */
    method SessionFor(sessionId: Option<int>, now: int) returns (sid: int)
      requires Valid()
      modifies this
      ensures Valid()
      ensures (db, sid) == Target(old(db), old(current), sessionId, now)
      ensures current == CurrentAfter(old(db), old(current), sessionId, now)
    {
      if sessionId.None? {
        var s := GetOrCreateActiveSession(now);
        sid := s;
      } else {
        sid := sessionId.value;
      }
    }

    /** `log_message`. */
    method LogMessage(role: string, content: string, tokens: int, metadata: Object, sessionId: Option<int>, now: int)
      returns (id: nat)
      requires Valid()
      modifies this
      ensures Valid()
      ensures var (d, sid) := Target(old(db), old(current), sessionId, now);
        (db, id) == LogMessageDb(d, sid, role, content, tokens, metadata, now)
      ensures current == CurrentAfter(old(db), old(current), sessionId, now)
    {
      var sid := SessionFor(sessionId, now);
      MessageLogged(db, sid, role, content, tokens, metadata, now);
      var logged := LogMessageDb(db, sid, role, content, tokens, metadata, now);
      db, id := logged.0, logged.1;
    }

    /** `log_decision`. */
    method LogDecision(decision: string, context: Option<string>, sessionId: Option<int>, now: int) returns (id: nat)
      requires Valid()
      modifies this
      ensures Valid()
      ensures var (d, sid) := Target(old(db), old(current), sessionId, now);
        (db, id) == LogDecisionDb(d, sid, decision, context, now)
      ensures current == CurrentAfter(old(db), old(current), sessionId, now)
    {
      var sid := SessionFor(sessionId, now);
      DecisionAppended(db.decisions, db.decisionSeq, Decision(db.decisionSeq + 1, sid, decision, context, now));
      var logged := LogDecisionDb(db, sid, decision, context, now);
      db, id := logged.0, logged.1;
    }

    /** `get_session_messages`. */
    method GetSessionMessages(sessionId: Option<int>, limit: Option<int>, role: Option<string>, now: int)
      returns (ms: seq<Message>)
      requires Valid()
      modifies this
      ensures Valid()
      ensures (db, current) == (Target(old(db), old(current), sessionId, now).0, CurrentAfter(old(db), old(current), sessionId, now))
      ensures ms == SessionMessages(db.messages, Target(old(db), old(current), sessionId, now).1, limit, role)
    {
      var sid := SessionFor(sessionId, now);
      ms := SessionMessages(db.messages, sid, limit, role);
    }

    /** `get_session_info`; `_current_session_id or ...` resolves like the other calls, as ids
        are never 0. */
    method GetSessionInfo(sessionId: Option<int>, now: int) returns (info: Option<Info>)
      requires Valid()
      modifies this
      ensures Valid()
      ensures (db, current) == (Target(old(db), old(current), sessionId, now).0, CurrentAfter(old(db), old(current), sessionId, now))
      ensures info == SessionInfo(db, Target(old(db), old(current), sessionId, now).1)
    {
      var sid := SessionFor(sessionId, now);
      info := SessionInfo(db, sid);
    }

    /** `search_sessions`: read only. */
    method SearchSessions(query: Option<string>, tag: Option<string>, limit: int) returns (r: seq<Session>)
      ensures r == SearchSessionsDb(db, query, tag, limit)
    {
      r := SearchSessionsDb(db, query, tag, limit);
    }

    /** `end_session`: without a given or current id nothing happens; the current id is
        forgotten exactly when it is the one ended. */
    method EndSession(sessionId: Option<int>, summary: Option<string>, now: int)
      requires Valid()
      modifies this
      ensures Valid()
      ensures sessionId.None? && old(current).None? ==> db == old(db) && current == old(current)
      ensures sessionId.Some? || old(current).Some? ==>
        var sid: int := if sessionId.Some? then sessionId.value else old(current).value;
        && db == old(db).(sessions := EndRow(old(db).sessions, sid, summary, now))
        && current == (if old(current) == Some(sid) then None else old(current))
    {
      var sid: int;
      if sessionId.Some? {
        sid := sessionId.value;
      } else if current.Some? {
        sid := current.value;
      } else {
        return;
      }
      EndedSession(db, sid, summary, now);
      db := db.(sessions := EndRow(db.sessions, sid, summary, now));
      if current == Some(sid) {
        current := None;
      }
    }

    /** `get_stats`: read only. */
    method GetStats() returns (st: Stats)
      ensures st == StatsOf(db)
    {
      st := StatsOf(db);
    }
  }
}
