/**
 * The session service: sessions and their messages in an abstract store
 * keyed by UUID, and the worker of each session obtained from, and
 * terminated through, the worker pool.
 */
module Sessions {
  import opened Common
  import opened Text
  import opened Schemas
  import opened Workers

  predicate IsHexDigit(c: char) {
    '0' <= c <= '9' || 'a' <= c <= 'f' || 'A' <= c <= 'F'
  }

  /** The canonical key of a UUID: its 32 hex digits in lower case. */
  predicate IsUuidKey(h: string) {
    |h| == 32 && forall i :: 0 <= i < |h| ==> '0' <= h[i] <= '9' || 'a' <= h[i] <= 'f'
  }

  predicate IsBrace(c: char) {
    c == '{' || c == '}'
  }

  /** `s.strip('{}')`. */
  function StripBraces(s: string): (r: string)
    ensures |r| <= |s|
    ensures r != [] ==> !IsBrace(r[0]) && !IsBrace(r[|r| - 1])
    decreases |s|
  {
    if s == [] then []
    else if IsBrace(s[0]) then StripBraces(s[1..])
    else if IsBrace(s[|s| - 1]) then StripBraces(s[..|s| - 1])
    else s
  }

  /** `s.replace('-', '')`. */
  function RemoveHyphens(s: string): (r: string)
    ensures |r| <= |s|
    ensures forall i :: 0 <= i < |r| ==> r[i] != '-'
    ensures (forall i :: 0 <= i < |s| ==> s[i] != '-') ==> r == s
  {
    if s == [] then []
    else (if s[0] == '-' then [] else [s[0]]) + RemoveHyphens(s[1..])
  }

  lemma {:induction false} RemoveHyphensAppend(a: string, b: string)
    ensures RemoveHyphens(a + b) == RemoveHyphens(a) + RemoveHyphens(b)
  {
    if a == [] {
      assert a + b == b;
    } else {
      assert (a + b)[1..] == a[1..] + b;
      RemoveHyphensAppend(a[1..], b);
    }
  }

  /**
   * `uuid.UUID(s)` on session id text: braces stripped from both ends and
   * hyphens removed, 32 hex digits remain, in either case. The result is
   * the canonical key; malformed text gives nothing.
   */
  function ParseUuid(s: string): (r: Option<string>)
    ensures r.Some? <==>
              var h := RemoveHyphens(StripBraces(s));
              |h| == 32 && forall i :: 0 <= i < |h| ==> IsHexDigit(h[i])
    ensures r.Some? ==> r.value == Lower(RemoveHyphens(StripBraces(s)))
    ensures r.Some? ==> IsUuidKey(r.value)
  {
    var h := RemoveHyphens(StripBraces(s));
    if |h| == 32 && forall i :: 0 <= i < |h| ==> IsHexDigit(h[i]) then Some(Lower(h)) else None
  }

  /** `str(uuid)`: the key in the 8-4-4-4-12 hyphenated form. */
  function Hyphenated(h: string): string
    requires |h| == 32
  {
    h[..8] + "-" + h[8..12] + "-" + h[12..16] + "-" + h[16..20] + "-" + h[20..]
  }

  lemma RemoveHyphensJoin(a: string, b: string)
    ensures RemoveHyphens(a + "-" + b) == RemoveHyphens(a) + RemoveHyphens(b)
  {
    RemoveHyphensAppend(a + "-", b);
    RemoveHyphensAppend(a, "-");
  }

  /** A key is already lower case. */
  lemma LowerKey(h: string)
    requires IsUuidKey(h)
    ensures Lower(h) == h
  {
    assert forall i :: 0 <= i < |h| ==> Lower(h)[i] == h[i];
  }

  /** Text without braces at either end is left alone by the stripping. */
  lemma StripBracesUnbraced(t: string)
    requires t != [] && !IsBrace(t[0]) && !IsBrace(t[|t| - 1])
    ensures StripBraces(t) == t
  {
  }

  /** A key parses to itself. */
  lemma UuidKeyParsesToItself(h: string)
    requires IsUuidKey(h)
    ensures ParseUuid(h) == Some(h)
  {
    StripBracesUnbraced(h);
    LowerKey(h);
  }

  /** A run of a key's digits has no hyphen to remove. */
  lemma KeySliceKept(h: string, i: int, j: int)
    requires IsUuidKey(h) && 0 <= i <= j <= |h|
    ensures RemoveHyphens(h[i..j]) == h[i..j]
  {
    assert forall k :: 0 <= k < j - i ==> h[i..j][k] == h[i + k];
  }

  /** Removing the hyphens of the hyphenated form gives back the digits. */
  lemma HyphensRemoved(h: string)
    requires IsUuidKey(h)
    ensures RemoveHyphens(Hyphenated(h)) == h
  {
    KeySliceKept(h, 0, 8);
    KeySliceKept(h, 8, 12);
    KeySliceKept(h, 12, 16);
    KeySliceKept(h, 16, 20);
    KeySliceKept(h, 20, 32);
    var q1 := h[..8] + "-" + h[8..12];
    RemoveHyphensJoin(h[..8], h[8..12]);
    assert h[..8] + h[8..12] == h[..12];
    var q2 := q1 + "-" + h[12..16];
    RemoveHyphensJoin(q1, h[12..16]);
    assert h[..12] + h[12..16] == h[..16];
    var q3 := q2 + "-" + h[16..20];
    RemoveHyphensJoin(q2, h[16..20]);
    assert h[..16] + h[16..20] == h[..20];
    var q4 := q3 + "-" + h[20..];
    RemoveHyphensJoin(q3, h[20..]);
    assert h[..20] + h[20..] == h;
    assert Hyphenated(h) == q4;
  }

  /** The text form of a session id parses back to the same key. */
  lemma UuidTextRoundTrip(h: string)
    requires IsUuidKey(h)
    ensures ParseUuid(Hyphenated(h)) == Some(h)
  {
    StripBracesUnbraced(Hyphenated(h));
    HyphensRemoved(h);
    LowerKey(h);
  }

  /**
   * The store accepts several spellings of one id, but the pool files
   * workers under the text as given: the hyphenated and the bare form of
   * an id name the same stored session and different pool entries.
   */
  lemma SpellingsShareSessionNotWorker(h: string)
    requires IsUuidKey(h)
    ensures ParseUuid(Hyphenated(h)) == ParseUuid(h) == Some(h)
    ensures Hyphenated(h) != h
  {
    UuidTextRoundTrip(h);
    UuidKeyParsesToItself(h);
    assert |Hyphenated(h)| == 36;
  }

  /** A message as the store keeps it. */
  datatype StoredMessage = StoredMessage(role: MessageRole, content: string, metadata: Metadata)

  /** A stored session: its status and its messages in creation order. */
  datatype SessionRow = SessionRow(status: SessionStatus, messages: seq<StoredMessage>)

  type Store = map<string, SessionRow>

  /** The session store, keyed by canonical UUID. */
  class Database {
    var sessions: Store

    constructor (sessions: Store)
      ensures this.sessions == sessions
    {
      this.sessions := sessions;
    }
  }

  /** Looks a session up by its id text; malformed text gives nothing rather than an error. */
  function GetSession(rows: Store, sid: string): (r: Option<SessionRow>)
    ensures ParseUuid(sid).None? ==> r.None?
    ensures r.Some? <==> ParseUuid(sid).Some? && ParseUuid(sid).value in rows
    ensures r.Some? ==> r.value == rows[ParseUuid(sid).value]
  {
    var key := ParseUuid(sid);
    if key.Some? && key.value in rows then Some(rows[key.value]) else None
  }

  /** The keys of the sessions that are not terminated. */
  function ListSessions(rows: Store): (r: set<string>)
    ensures r <= rows.Keys
    ensures forall k :: k in rows ==> (k in r <==> rows[k].status != SessionStatus.Terminated)
  {
    set k | k in rows && rows[k].status != SessionStatus.Terminated
  }

  /** A session's messages in order; empty for malformed text or an unknown session. */
  function GetSessionMessages(rows: Store, sid: string): (r: seq<StoredMessage>)
    ensures GetSession(rows, sid).None? ==> r == []
    ensures GetSession(rows, sid).Some? ==> r == GetSession(rows, sid).value.messages
  {
    var key := ParseUuid(sid);
    if key.Some? && key.value in rows then rows[key.value].messages else []
  }

  /** The store after a session is marked terminated; its messages are kept. */
  function MarkTerminated(rows: Store, key: string): (r: Store)
    requires key in rows
    ensures r.Keys == rows.Keys
    ensures r[key] == SessionRow(SessionStatus.Terminated, rows[key].messages)
    ensures forall k :: k in rows && k != key ==> r[k] == rows[k]
  {
    rows[key := rows[key].(status := SessionStatus.Terminated)]
  }

  /**
   * A terminated session disappears from the listing but is still found by
   * id, with its messages.
   */
  lemma TerminatedSessionStillFetched(rows: Store, sid: string)
    requires GetSession(rows, sid).Some?
    ensures var after := MarkTerminated(rows, ParseUuid(sid).value);
            && ParseUuid(sid).value !in ListSessions(after)
            && GetSession(after, sid) == Some(SessionRow(SessionStatus.Terminated, GetSession(rows, sid).value.messages))
            && GetSessionMessages(after, sid) == GetSessionMessages(rows, sid)
            && ListSessions(after) == ListSessions(rows) - {ParseUuid(sid).value}
  {
  }

  /** The stored form of a validated message; metadata left unset is stored as the empty map. */
  function ToStored(data: MessageCreate): (m: StoredMessage)
    ensures m.role == data.role && m.content == data.content
    ensures data.metadata.None? ==> m.metadata == map[]
    ensures data.metadata.Some? ==> m.metadata == data.metadata.value
  {
    StoredMessage(data.role, data.content, if data.metadata.Some? then data.metadata.value else map[])
  }

  class SessionManager {
    const pool: WorkerPool

    /** Uses the given pool, or a new empty one of the default capacity. */
    constructor (pool: WorkerPool?)
      ensures pool != null ==> this.pool == pool
      ensures pool == null ==>
                fresh(this.pool) && this.pool.workers == map[]
                && this.pool.maxWorkers == DEFAULT_MAX_WORKERS && this.pool.Valid()
    {
      if pool != null {
        this.pool := pool;
      } else {
        this.pool := new WorkerPool(DEFAULT_MAX_WORKERS);
      }
    }

    /**
     * Appends a message to a session. Malformed id text, and an id with no
     * session, raise and leave the store unchanged; otherwise the message
     * is appended to that session's messages and nothing else changes.
     */
    method CreateMessage(db: Database, sid: string, data: MessageCreate) returns (r: Result<StoredMessage, ServiceError>)
      modifies db
      ensures ParseUuid(sid).None? ==> r == Err(InvalidSessionId(sid)) && db.sessions == old(db.sessions)
      ensures ParseUuid(sid).Some? && GetSession(old(db.sessions), sid).None? ==>
                r == Err(SessionNotFound(sid)) && db.sessions == old(db.sessions)
      ensures GetSession(old(db.sessions), sid).Some? ==>
                && r == Ok(ToStored(data))
                && var key := ParseUuid(sid).value;
                   db.sessions == old(db.sessions)[key := old(db.sessions)[key].(messages := old(db.sessions)[key].messages + [ToStored(data)])]
      ensures r.Ok? ==> GetSessionMessages(db.sessions, sid) == GetSessionMessages(old(db.sessions), sid) + [r.value]
    {
      var key := ParseUuid(sid);
      if key.None? {
        return Err(InvalidSessionId(sid));
      }
      var session := GetSession(db.sessions, sid);
      if session.None? {
        return Err(SessionNotFound(sid));
      }
      var message := ToStored(data);
      var row := db.sessions[key.value];
      db.sessions := db.sessions[key.value := row.(messages := row.messages + [message])];
      r := Ok(message);
    }

    /**
     * The session's worker: the pool's existing one if any, without
     * spawning; otherwise whatever spawning gives, error included.
     */
    method GetOrCreateWorker(sid: SessionId, freshWorkerId: string, now: Timestamp, sessionHash: int, agentFailure: Option<string>)
      returns (r: Result<Worker, ServiceError>)
      requires pool.Valid()
      requires forall s :: s in pool.workers ==> pool.workers[s].workerId != freshWorkerId
      modifies pool
      ensures pool.Valid()
      ensures sid in old(pool.workers) ==> r == Ok(old(pool.workers)[sid]) && pool.workers == old(pool.workers)
      ensures sid !in old(pool.workers) && |old(pool.workers)| >= pool.maxWorkers ==>
                r == Err(CapacityExceeded(pool.maxWorkers)) && pool.workers == old(pool.workers)
      ensures sid !in old(pool.workers) && agentFailure.Some? && |old(pool.workers)| < pool.maxWorkers ==>
                r == Err(InitializationFailure(agentFailure.value)) && pool.workers == old(pool.workers)
      ensures sid !in old(pool.workers) && agentFailure.None? && |old(pool.workers)| < pool.maxWorkers ==> r.Ok?
      ensures r.Ok? ==> r.value.sessionId == sid && sid in pool.workers && pool.workers[sid] == r.value
      ensures r.Ok? && sid !in old(pool.workers) ==>
                fresh(r.value) && r.value.workerId == freshWorkerId && r.value.status == Ready
                && pool.workers == old(pool.workers)[sid := r.value]
    {
      var existing := pool.GetWorker(sid);
      if existing.Some? {
        return Ok(existing.value);
      }
      r := pool.SpawnWorker(sid, freshWorkerId, now, sessionHash, agentFailure);
    }

    /**
     * Asking twice for the same session's worker gives the same worker; the
     * second request spawns nothing.
     */
    method GetOrCreateWorkerTwice(sid: SessionId, id1: string, id2: string, now: Timestamp, sessionHash: int)
      returns (first: Result<Worker, ServiceError>, second: Result<Worker, ServiceError>)
      requires pool.Valid()
      requires id1 != id2
      requires forall s :: s in pool.workers ==> pool.workers[s].workerId != id1 && pool.workers[s].workerId != id2
      modifies pool
      ensures first.Ok? ==> second == first
      ensures first.Ok? ==> pool.workers == old(pool.workers)[sid := first.value]
    {
      first := GetOrCreateWorker(sid, id1, now, sessionHash, None);
      second := GetOrCreateWorker(sid, id2, now, sessionHash, None);
    }

    /**
     * Terminates a session. A session that cannot be found gives false and
     * touches no worker. Otherwise its worker, if the pool has one under
     * the id text, is terminated; if that raises, the store is rolled back
     * and the error propagates, else the session is marked terminated and
     * the result is true.
     */
    method TerminateSession(db: Database, sid: string, cleanupFailure: Option<string>)
      returns (r: Result<bool, ServiceError>)
      requires pool.Valid()
      modifies db, pool, if sid in pool.workers then {pool.workers[sid]} else {}
      ensures pool.Valid()
      ensures GetSession(old(db.sessions), sid).None? ==>
                r == Ok(false) && db.sessions == old(db.sessions) && pool.workers == old(pool.workers)
      ensures GetSession(old(db.sessions), sid).Some? && r.Err? ==>
                && sid in old(pool.workers) && cleanupFailure.Some?
                && r == Err(CleanupFailure(cleanupFailure.value))
                && db.sessions == old(db.sessions) && pool.workers == old(pool.workers)
      ensures GetSession(old(db.sessions), sid).Some? && r.Ok? ==>
                && r == Ok(true)
                && db.sessions == MarkTerminated(old(db.sessions), ParseUuid(sid).value)
                && pool.workers == old(pool.workers) - {sid}
      ensures GetSession(old(db.sessions), sid).Some? && sid !in old(pool.workers) ==> r == Ok(true)
      ensures GetSession(old(db.sessions), sid).None? && sid in old(pool.workers) ==> unchanged(old(pool.workers)[sid])
      ensures r == Ok(true) && sid in old(pool.workers) ==>
                old(pool.workers)[sid].status == WorkerStatus.Terminated && old(pool.workers)[sid].agentService == None
      ensures r.Err? ==> old(pool.workers)[sid].status == Terminating
    {
      var session := GetSession(db.sessions, sid);
      if session.None? {
        return Ok(false);
      }
      var terminated := pool.TerminateWorker(sid, cleanupFailure);
      if terminated.Err? {
        return Err(terminated.error);
      }
      var key := ParseUuid(sid).value;
      db.sessions := MarkTerminated(db.sessions, key);
      r := Ok(true);
    }

    /** The pool's health report. */
    method GetWorkerHealth() returns (report: HealthReport)
      ensures report.totalWorkers == |pool.workers| && report.maxWorkers == pool.maxWorkers
      ensures report.workers.Keys == pool.workers.Keys
      ensures forall s :: s in pool.workers ==> report.workers[s] == pool.workers[s].Health()
      ensures pool.Valid() ==> report.totalWorkers <= report.maxWorkers
    {
      report := pool.HealthCheck();
    }
  }
}
