/**
  The session-matching coordinator of the signalling server.

  It keeps two tables keyed by session id: the guide (or coach) who joined
  the session and the member who joined it, one slot each. A join files the
  joining participant's record into one of the two tables according to its
  role, overwriting whatever that slot held, and answers with an advice that
  says whether the session now has both sides.
*/
module LiveSessions {
  import opened Wrappers

  // ---------------------------------------------------------------------
  // Data model
  // ---------------------------------------------------------------------

  /** A session id as it is read off the join data, unchecked: any primitive
      JavaScript value, or missing altogether (a JavaScript `Map` accepts
      `undefined` and `null` as keys like any other, and keeps them apart).
      Two keys are the same slot exactly when they are equal values, as `Map`
      compares primitive keys. */
  datatype SessionKey = Undefined | Null | Bool(b: bool) | Num(r: real) | Str(s: string)

  /** The join data sent by a client. The stored record has the same shape,
      with `socketId` set by the coordinator. */
  datatype SessionData = SessionData(
    sessionId: SessionKey,
    role: Option<string>,
    userId: Option<string>,
    socketId: Option<string>)

  const GUIDE: string := "guide"
  const COACH: string := "coach"

  /** Only the exact strings "guide" and "coach" select the guide table;
      every other role, a missing one included, is a member role. */
  predicate IsGuideRole(role: Option<string>) {
    role == Some(GUIDE) || role == Some(COACH)
  }

  /** The readiness verdict returned to the joining client: a "no" with a
      reason, or an "ok"/"Ready" carrying the two socket ids. */
  datatype Advice =
    | No(reason: string)
    | Ready(guideSocketId: Option<string>, memberSocketId: Option<string>)
  {
    function Status(): (s: string)
      ensures s == "ok" <==> Ready?
      ensures s == "no" <==> No?
    {
      if No? then "no" else "ok"
    }

    function Reason(): (s: string)
      ensures Ready? ==> s == "Ready"
    {
      if No? then reason else "Ready"
    }
  }

  const ERROR: Advice := No("Neither Guide nor Member has joined")
  const NO_MEMBER: Advice := No("Awaiting Member")
  const NO_GUIDE: Advice := No("Awaiting Guide")

  /** The coordinator's whole state: the guide table and the member table. */
  datatype Sessions = Sessions(
    guides: map<SessionKey, SessionData>,
    members: map<SessionKey, SessionData>)

  const NoSessions: Sessions := Sessions(map[], map[])

  /** The table a participant of the given side is filed in. */
  function Table(s: Sessions, guide: bool): map<SessionKey, SessionData> {
    if guide then s.guides else s.members
  }

  /** Every stored record sits under its own session id, carries a socket
      id, and is in the table its role selects. */
  ghost predicate WellFiled(s: Sessions) {
    && (forall k :: k in s.guides ==>
          s.guides[k].sessionId == k && s.guides[k].socketId.Some? && IsGuideRole(s.guides[k].role))
    && (forall k :: k in s.members ==>
          s.members[k].sessionId == k && s.members[k].socketId.Some? && !IsGuideRole(s.members[k].role))
  }

  // ---------------------------------------------------------------------
  // Operations
  // ---------------------------------------------------------------------

  /** The record that is stored for a join: the join data with its socket id
      replaced by the connection's own, whatever the data carried. */
  function Stored(data: SessionData, socketId: string): (r: SessionData)
    ensures r.socketId == Some(socketId)
    ensures r.sessionId == data.sessionId && r.role == data.role && r.userId == data.userId
  {
    data.(socketId := Some(socketId))
  }

  /** The state after a join: the slot of the joining side for that session
      holds the new record, and nothing else changes. */
  function Join(s: Sessions, data: SessionData, socketId: string): (t: Sessions)
    ensures var side, key := IsGuideRole(data.role), data.sessionId;
      && key in Table(t, side)
      && Table(t, side)[key] == Stored(data, socketId)
      && Table(t, side) - {key} == Table(s, side) - {key}
      && Table(t, !side) == Table(s, !side)
  {
    var rec := Stored(data, socketId);
    if IsGuideRole(data.role) then s.(guides := s.guides[data.sessionId := rec])
    else s.(members := s.members[data.sessionId := rec])
  }

  /** The readiness of one session, decided by which of its two slots are
      filled. */
  function BuildAdvice(s: Sessions, sessionId: SessionKey): (r: Advice)
    ensures r == ERROR <==> sessionId !in s.guides && sessionId !in s.members
    ensures r == NO_MEMBER <==> sessionId in s.guides && sessionId !in s.members
    ensures r == NO_GUIDE <==> sessionId !in s.guides && sessionId in s.members
    ensures r.Status() == "ok" <==> sessionId in s.guides && sessionId in s.members
    ensures r.Ready? ==>
      r.guideSocketId == s.guides[sessionId].socketId && r.memberSocketId == s.members[sessionId].socketId
  {
    var hasGuide := sessionId in s.guides;
    var hasMember := sessionId in s.members;
    if !hasGuide && !hasMember then ERROR
    else if hasGuide && !hasMember then NO_MEMBER
    else if hasMember && !hasGuide then NO_GUIDE
    else Ready(s.guides[sessionId].socketId, s.members[sessionId].socketId)
  }

  // ---------------------------------------------------------------------
  // Properties of one join
  // ---------------------------------------------------------------------

  /** The advice a join returns, in terms of the state before it: the
      joining side is now present, so the answer is never ERROR; it is Ready
      with the new socket id exactly when the other side was already there. */
  lemma JoinAdvice(s: Sessions, data: SessionData, socketId: string)
    ensures var r, key := BuildAdvice(Join(s, data, socketId), data.sessionId), data.sessionId;
      && r != ERROR
      && (IsGuideRole(data.role) ==>
            r == if key in s.members then Ready(Some(socketId), s.members[key].socketId) else NO_MEMBER)
      && (!IsGuideRole(data.role) ==>
            r == if key in s.guides then Ready(s.guides[key].socketId, Some(socketId)) else NO_GUIDE)
  {
  }

  /** A join leaves the advice of every other session as it was. */
  lemma JoinIsolated(s: Sessions, data: SessionData, socketId: string, other: SessionKey)
    requires other != data.sessionId
    ensures BuildAdvice(Join(s, data, socketId), other) == BuildAdvice(s, other)
  {
  }

  /** Joining twice with the same data and socket id leaves the same state,
      and so the same advice, as joining once. */
  lemma JoinIdempotent(s: Sessions, data: SessionData, socketId: string)
    ensures Join(Join(s, data, socketId), data, socketId) == Join(s, data, socketId)
    ensures BuildAdvice(Join(Join(s, data, socketId), data, socketId), data.sessionId)
         == BuildAdvice(Join(s, data, socketId), data.sessionId)
  {
  }

  /** Joins keep every record under its own key, in the table its role
      selects, with a socket id; so a Ready advice always carries both ids. */
  lemma JoinKeepsWellFiled(s: Sessions, data: SessionData, socketId: string)
    requires WellFiled(s)
    ensures WellFiled(Join(s, data, socketId))
    ensures var r := BuildAdvice(Join(s, data, socketId), data.sessionId);
      r.Ready? ==> r.guideSocketId.Some? && r.memberSocketId.Some?
  {
  }

  // ---------------------------------------------------------------------
  // Properties of a history of joins
  // ---------------------------------------------------------------------

  /** One call of the join operation. */
  datatype JoinEvent = JoinEvent(data: SessionData, socketId: string)

  /** The state after a sequence of joins, starting from empty tables. */
  function Replay(trace: seq<JoinEvent>): (s: Sessions)
    decreases |trace|
  {
    if trace == [] then NoSessions
    else
      var last := trace[|trace| - 1];
      Join(Replay(trace[..|trace| - 1]), last.data, last.socketId)
  }

  /** Whether a join event files into the given side of the given session. */
  predicate Files(e: JoinEvent, sessionId: SessionKey, guide: bool) {
    e.data.sessionId == sessionId && IsGuideRole(e.data.role) == guide
  }

  /** The position of the most recent join into one side of one session, or
      -1 when there has been none. */
  function LastJoin(trace: seq<JoinEvent>, sessionId: SessionKey, guide: bool): (i: int)
    ensures -1 <= i < |trace|
    ensures i >= 0 ==> Files(trace[i], sessionId, guide)
    ensures forall j :: i < j < |trace| ==> !Files(trace[j], sessionId, guide)
    decreases |trace|
  {
    if trace == [] then -1
    else if Files(trace[|trace| - 1], sessionId, guide) then |trace| - 1
    else LastJoin(trace[..|trace| - 1], sessionId, guide)
  }

  /** After any history, a slot is filled exactly when some join went into
      it, and it holds the record of the most recent such join. */
  lemma {:induction false} ReplaySlot(trace: seq<JoinEvent>, sessionId: SessionKey, guide: bool)
    ensures var i, table := LastJoin(trace, sessionId, guide), Table(Replay(trace), guide);
      && (sessionId in table <==> i >= 0)
      && (i >= 0 ==> table[sessionId] == Stored(trace[i].data, trace[i].socketId))
  {
    if trace != [] {
      var prefix, last := trace[..|trace| - 1], trace[|trace| - 1];
      ReplaySlot(prefix, sessionId, guide);
      var before, after := Replay(prefix), Replay(trace);
      assert after == Join(before, last.data, last.socketId);
      if !Files(last, sessionId, guide) {
        assert LastJoin(trace, sessionId, guide) == LastJoin(prefix, sessionId, guide);
        if IsGuideRole(last.data.role) == guide {
          assert last.data.sessionId != sessionId;
          assert sessionId in Table(after, guide) <==> sessionId in Table(after, guide) - {last.data.sessionId};
          assert sessionId in Table(before, guide) <==> sessionId in Table(before, guide) - {last.data.sessionId};
          if sessionId in Table(before, guide) {
            assert (Table(after, guide) - {last.data.sessionId})[sessionId]
                == (Table(before, guide) - {last.data.sessionId})[sessionId];
          }
        } else {
          assert Table(after, guide) == Table(before, guide);
        }
      }
    }
  }

  /** After any history, the advice for a session is determined by the most
      recent guide join and the most recent member join into it: Ready with
      those two joins' socket ids when both exist, otherwise the "no" advice
      naming what is missing. */
  lemma ReplayAdvice(trace: seq<JoinEvent>, sessionId: SessionKey)
    ensures var r, g, m := BuildAdvice(Replay(trace), sessionId),
                           LastJoin(trace, sessionId, true), LastJoin(trace, sessionId, false);
      && (g < 0 && m < 0 ==> r == ERROR)
      && (g >= 0 && m < 0 ==> r == NO_MEMBER)
      && (g < 0 && m >= 0 ==> r == NO_GUIDE)
      && (g >= 0 && m >= 0 ==> r == Ready(Some(trace[g].socketId), Some(trace[m].socketId)))
  {
    ReplaySlot(trace, sessionId, true);
    ReplaySlot(trace, sessionId, false);
  }

  /** ERROR is the advice for a session exactly when no join in the history
      named that session. */
  lemma ErrorOnlyWhenUntouched(trace: seq<JoinEvent>, sessionId: SessionKey)
    ensures BuildAdvice(Replay(trace), sessionId) == ERROR
        <==> forall i :: 0 <= i < |trace| ==> trace[i].data.sessionId != sessionId
  {
    ReplayAdvice(trace, sessionId);
    var g, m := LastJoin(trace, sessionId, true), LastJoin(trace, sessionId, false);
    if g < 0 && m < 0 {
      forall i | 0 <= i < |trace| ensures trace[i].data.sessionId != sessionId {
        assert !Files(trace[i], sessionId, true) && !Files(trace[i], sessionId, false);
      }
    }
  }

  /** Every state reached by joins is well filed. */
  lemma {:induction false} ReplayWellFiled(trace: seq<JoinEvent>)
    ensures WellFiled(Replay(trace))
  {
    if trace != [] {
      var last := trace[|trace| - 1];
      ReplayWellFiled(trace[..|trace| - 1]);
      JoinKeepsWellFiled(Replay(trace[..|trace| - 1]), last.data, last.socketId);
    }
  }

  // ---------------------------------------------------------------------
  // The coordinator object
  // ---------------------------------------------------------------------

  /** The two tables as mutable state, updated in place by each join. */
  class Coordinator {
    var sessionGuides: map<SessionKey, SessionData>
    var sessionMembers: map<SessionKey, SessionData>

    function State(): Sessions
      reads this
    {
      Sessions(sessionGuides, sessionMembers)
    }

    ghost predicate Valid()
      reads this
    {
      WellFiled(State())
    }

    constructor ()
      ensures Valid() && State() == NoSessions
    {
      sessionGuides := map[];
      sessionMembers := map[];
    }

    /** Files the join into the guide or the member table according to the
        role, then reports the session's readiness. */
    method JoinSession(sessionData: SessionData, socketId: string) returns (advice: Advice)
      requires Valid()
      modifies this
      ensures Valid()
      ensures State() == Join(old(State()), sessionData, socketId)
      ensures advice == BuildAdvice(State(), sessionData.sessionId)
      ensures advice != ERROR
      ensures advice.Ready? ==> advice.guideSocketId.Some? && advice.memberSocketId.Some?
    {
      JoinKeepsWellFiled(State(), sessionData, socketId);
      JoinAdvice(State(), sessionData, socketId);
      var sessionId := sessionData.sessionId;
      var role := sessionData.role;
      if IsGuideRole(role) {
        sessionGuides := sessionGuides[sessionId := Stored(sessionData, socketId)];
      } else {
        sessionMembers := sessionMembers[sessionId := Stored(sessionData, socketId)];
      }
      advice := BuildAdvice(State(), sessionId);
    }
  }
}
