/**
 * What the clustered service agent does with one decoded log fragment (its onFragment
 * handler), as a function on the part of the agent's state the handler touches: the session
 * table, the logical clock, the hosted-service callbacks issued so far and the resources it
 * asked to close. The class in ServiceAgent runs the same steps on its fields.
 */
module LogDispatch {
  import opened Wrappers
  import opened Numbers
  import Sets

  /**
   * Length of the session header in front of an application message: the SBE message header
   * plus the session-header block. The generated codecs are not part of this model, so the
   * value is left open: any positive length.
   */
  const SESSION_HEADER_LENGTH: PosInt

  /** A connected client: its cluster session id and where its response publication goes. */
  datatype ClientSession = ClientSession(clusterSessionId: int, responseChannel: string, responseStreamId: int)

  /** One log event, already decoded by template id. */
  datatype Event =
    | SessionMessage(clusterSessionId: int, correlationId: int, timestamp: int)
    | Timer(correlationId: int, timestamp: int)
    | Open(clusterSessionId: int, timestamp: int, responseChannel: string, responseStreamId: int)
    | Close(clusterSessionId: int, timestamp: int, closeReason: int)
    | Other(templateId: int)   // a template id the agent does not know

  /** A fragment handed to the handler: the decoded event and where it lies in the term buffer. */
  datatype Fragment = Fragment(event: Event, offset: int, length: int)

  /** A call into the hosted service. */
  datatype Callback =
    | OnStart
    | OnSessionMessage(clusterSessionId: int, correlationId: int, timestampMs: int, payloadOffset: int, payloadLength: int)
    | OnTimerEvent(correlationId: int, timestampMs: int)
    | OnSessionOpen(session: ClientSession, timestampMs: int)
    | OnSessionClose(session: ClientSession, timestampMs: int, closeReason: int)

  /** A resource the agent asked to close. */
  datatype Resource =
    | ResponsePublication(session: ClientSession)
    | LogSubscription
    | TimerPublication
    | RecordingEventLog

  datatype ServiceState = ServiceState(
    sessions: map<int, ClientSession>,
    timestampMs: int,
    callbacks: seq<Callback>,
    closed: seq<Resource>)

  /** Every session is stored under its own cluster session id. */
  ghost predicate SessionsKeyed(m: map<int, ClientSession>)
  {
    forall id :: id in m ==> m[id].clusterSessionId == id
  }

  /** m and m' hold the same entries for every id other than id. */
  ghost predicate SameExcept(m: map<int, ClientSession>, m': map<int, ClientSession>, id: int)
  {
    forall k :: k != id ==> (k in m <==> k in m') && (k in m ==> m[k] == m'[k])
  }

  /** The timestamp an event carries, if it carries one. */
  function Stamp(e: Event): Option<int>
  {
    match e
    case SessionMessage(_, _, ts) => Some(ts)
    case Timer(_, ts) => Some(ts)
    case Open(_, ts, _, _) => Some(ts)
    case Close(_, ts, _) => Some(ts)
    case Other(_) => None
  }

  /** The handler: route by template id, update the table and the clock, call the service. */
  function Dispatch(s: ServiceState, f: Fragment): (r: ServiceState)
    ensures SessionsKeyed(s.sessions) ==> SessionsKeyed(r.sessions)
    // a session message keeps the table and passes on the payload behind the session header
    ensures f.event.SessionMessage? ==>
      && r.sessions == s.sessions && r.closed == s.closed
      && r.timestampMs == f.event.timestamp
      && r.callbacks == s.callbacks + [OnSessionMessage(f.event.clusterSessionId, f.event.correlationId,
                                         f.event.timestamp, f.offset + SESSION_HEADER_LENGTH,
                                         f.length - SESSION_HEADER_LENGTH)]
    ensures f.event.Timer? ==>
      && r.sessions == s.sessions && r.closed == s.closed
      && r.timestampMs == f.event.timestamp
      && r.callbacks == s.callbacks + [OnTimerEvent(f.event.correlationId, f.event.timestamp)]
    // an open stores a new session under its id, replacing (and not closing) any earlier one
    ensures f.event.Open? ==>
      var id := f.event.clusterSessionId;
      && id in r.sessions
      && r.sessions[id] == ClientSession(id, f.event.responseChannel, f.event.responseStreamId)
      && SameExcept(s.sessions, r.sessions, id)
      && r.timestampMs == f.event.timestamp
      && r.callbacks == s.callbacks + [OnSessionOpen(r.sessions[id], f.event.timestamp)]
      && r.closed == s.closed
    // a close of a known session removes exactly it and closes its response publication
    ensures f.event.Close? && f.event.clusterSessionId in s.sessions ==>
      var id := f.event.clusterSessionId;
      && id !in r.sessions
      && SameExcept(s.sessions, r.sessions, id)
      && r.timestampMs == f.event.timestamp
      && r.callbacks == s.callbacks + [OnSessionClose(s.sessions[id], f.event.timestamp, f.event.closeReason)]
      && r.closed == s.closed + [ResponsePublication(s.sessions[id])]
    // a close of an unknown session and an unknown template change nothing, not even the clock
    ensures f.event.Close? && f.event.clusterSessionId !in s.sessions ==> r == s
    ensures f.event.Other? ==> r == s
  {
    match f.event
    case SessionMessage(id, correlationId, ts) =>
      s.(timestampMs := ts,
         callbacks := s.callbacks + [OnSessionMessage(id, correlationId, ts,
                                       f.offset + SESSION_HEADER_LENGTH, f.length - SESSION_HEADER_LENGTH)])
    case Timer(correlationId, ts) =>
      s.(timestampMs := ts, callbacks := s.callbacks + [OnTimerEvent(correlationId, ts)])
    case Open(id, ts, channel, streamId) =>
      var session := ClientSession(id, channel, streamId);
      s.(sessions := s.sessions[id := session], timestampMs := ts,
         callbacks := s.callbacks + [OnSessionOpen(session, ts)])
    case Close(id, ts, reason) =>
      if id in s.sessions then
        var session := s.sessions[id];
        s.(sessions := s.sessions - {id}, timestampMs := ts,
           callbacks := s.callbacks + [OnSessionClose(session, ts, reason)],
           closed := s.closed + [ResponsePublication(session)])
      else
        s
    case Other(_) => s
  }

  /** Close requests for the response publications of the sessions under ids, in that order. */
  function ResponsePublications(sessions: map<int, ClientSession>, ids: seq<int>): (r: seq<Resource>)
    requires forall i :: 0 <= i < |ids| ==> ids[i] in sessions
    ensures |r| == |ids|
    ensures forall j :: 0 <= j < |ids| ==> r[j] == ResponsePublication(sessions[ids[j]])
    decreases |ids|
  {
    if ids == [] then []
    else ResponsePublications(sessions, ids[..|ids| - 1]) + [ResponsePublication(sessions[ids[|ids| - 1]])]
  }

  /** rs closes the response publication of every session in the table, each once, in some order. */
  ghost predicate ClosesEverySession(sessions: map<int, ClientSession>, rs: seq<Resource>)
  {
    exists ids: seq<int> :: Sets.Enumerates(sessions.Keys, ids) && rs == ResponsePublications(sessions, ids)
  }

  /** Closing every session closes as many publications as there are sessions. */
  lemma ClosingEverySessionCount(sessions: map<int, ClientSession>, rs: seq<Resource>)
    requires ClosesEverySession(sessions, rs)
    ensures |rs| == |sessions.Keys|
  {
    var ids :| Sets.Enumerates(sessions.Keys, ids) && rs == ResponsePublications(sessions, ids);
  }

  /** Closing every session includes the response publication of each session in the table. */
  lemma ClosingEverySessionCovers(sessions: map<int, ClientSession>, rs: seq<Resource>, id: int)
    requires ClosesEverySession(sessions, rs)
    requires id in sessions
    ensures ResponsePublication(sessions[id]) in rs
  {
    var ids :| Sets.Enumerates(sessions.Keys, ids) && rs == ResponsePublications(sessions, ids);
    assert id in ids;
    var j :| 0 <= j < |ids| && ids[j] == id;
    assert rs[j] == ResponsePublication(sessions[id]);
  }

  /** Closing every session closes nothing but the response publications of sessions in the table. */
  lemma ClosingEverySessionOnlySessions(sessions: map<int, ClientSession>, rs: seq<Resource>, j: int)
    requires ClosesEverySession(sessions, rs)
    requires 0 <= j < |rs|
    ensures rs[j].ResponsePublication? && rs[j].session in sessions.Values
  {
    var ids :| Sets.Enumerates(sessions.Keys, ids) && rs == ResponsePublications(sessions, ids);
    var id := ids[j];
    assert id in ids;
    assert id in sessions;
    assert rs[j] == ResponsePublication(sessions[id]);
    assert sessions[id] in sessions.Values;
  }

  /** Dispatch every fragment of fs in order. */
  function DispatchAll(s: ServiceState, fs: seq<Fragment>): (r: ServiceState)
    // the handler only appends to the callbacks and the closes, at most one of each per fragment
    ensures s.callbacks <= r.callbacks && |r.callbacks| <= |s.callbacks| + |fs|
    ensures s.closed <= r.closed && |r.closed| <= |s.closed| + |fs|
    decreases |fs|
  {
    if fs == [] then s else Dispatch(DispatchAll(s, fs[..|fs| - 1]), fs[|fs| - 1])
  }

  lemma DispatchAllSnoc(s: ServiceState, fs: seq<Fragment>, f: Fragment)
    ensures DispatchAll(s, fs + [f]) == Dispatch(DispatchAll(s, fs), f)
  {
    assert (fs + [f])[..|fs|] == fs;
  }

  lemma DispatchAllAppend(s: ServiceState, fs: seq<Fragment>, gs: seq<Fragment>)
    ensures DispatchAll(s, fs + gs) == DispatchAll(DispatchAll(s, fs), gs)
    decreases |gs|
  {
    if gs == [] {
      assert fs + gs == fs;
    } else {
      var g := gs[..|gs| - 1];
      assert fs + gs == (fs + g) + [gs[|gs| - 1]];
      assert gs == g + [gs[|gs| - 1]];
      DispatchAllSnoc(s, fs + g, gs[|gs| - 1]);
      DispatchAllSnoc(DispatchAll(s, fs), g, gs[|gs| - 1]);
      DispatchAllAppend(s, fs, g);
    }
  }

  /** Dispatching any sequence keeps every session under its own id. */
  lemma {:induction false} DispatchAllKeepsKeyed(s: ServiceState, fs: seq<Fragment>)
    requires SessionsKeyed(s.sessions)
    ensures SessionsKeyed(DispatchAll(s, fs).sessions)
    decreases |fs|
  {
    if fs != [] {
      DispatchAllKeepsKeyed(s, fs[..|fs| - 1]);
    }
  }

  ghost predicate OpensAt(fs: seq<Fragment>, i: int, id: int)
    requires 0 <= i < |fs|
  {
    fs[i].event.Open? && fs[i].event.clusterSessionId == id
  }

  ghost predicate ClosesAt(fs: seq<Fragment>, i: int, id: int)
    requires 0 <= i < |fs|
  {
    fs[i].event.Close? && fs[i].event.clusterSessionId == id
  }

  /** No fragment of fs from index from on closes session id. */
  ghost predicate NoCloseFrom(fs: seq<Fragment>, from: int, id: int)
  {
    forall j :: from <= j < |fs| && 0 <= j ==> !ClosesAt(fs, j, id)
  }

  /**
   * Session id is open after fs was applied to s: either fs opens it and never closes it
   * afterwards, or it was open before and fs never closes it.
   */
  ghost predicate OpenAfter(s: ServiceState, fs: seq<Fragment>, id: int)
  {
    || (exists i :: 0 <= i < |fs| && OpensAt(fs, i, id) && NoCloseFrom(fs, i + 1, id))
    || (id in s.sessions && NoCloseFrom(fs, 0, id))
  }

  /** The table holds exactly the sessions the log opened and has not closed since. */
  lemma {:induction false} TableIsOpenedNotClosed(s: ServiceState, fs: seq<Fragment>, id: int)
    ensures id in DispatchAll(s, fs).sessions <==> OpenAfter(s, fs, id)
    decreases |fs|
  {
    if fs != [] {
      var n := |fs| - 1;
      var p := fs[..n];
      var f := fs[n];
      TableIsOpenedNotClosed(s, p, id);
      assert forall i :: 0 <= i < n ==> p[i] == fs[i];
      assert forall j :: 0 <= j < n ==> (ClosesAt(p, j, id) <==> ClosesAt(fs, j, id));
      if OpensAt(fs, n, id) {
        assert NoCloseFrom(fs, n + 1, id);
      } else if ClosesAt(fs, n, id) {
        assert !OpenAfter(s, fs, id);
      } else {
        if OpenAfter(s, p, id) {
          if id in s.sessions && NoCloseFrom(p, 0, id) {
            assert NoCloseFrom(fs, 0, id);
          } else {
            var i :| 0 <= i < |p| && OpensAt(p, i, id) && NoCloseFrom(p, i + 1, id);
            assert OpensAt(fs, i, id) && NoCloseFrom(fs, i + 1, id);
          }
        }
        if OpenAfter(s, fs, id) {
          if id in s.sessions && NoCloseFrom(fs, 0, id) {
            assert NoCloseFrom(p, 0, id);
          } else {
            var i :| 0 <= i < |fs| && OpensAt(fs, i, id) && NoCloseFrom(fs, i + 1, id);
            assert OpensAt(p, i, id) && NoCloseFrom(p, i + 1, id);
          }
        }
      }
    }
  }

  /** The clock is only ever set from a timestamp carried by a dispatched event. */
  lemma {:induction false} ClockComesFromLog(s: ServiceState, fs: seq<Fragment>)
    ensures var t := DispatchAll(s, fs).timestampMs;
      t == s.timestampMs || exists i :: 0 <= i < |fs| && Stamp(fs[i].event) == Some(t)
    decreases |fs|
  {
    if fs != [] {
      var n := |fs| - 1;
      ClockComesFromLog(s, fs[..n]);
      var t := DispatchAll(s, fs).timestampMs;
      if t != DispatchAll(s, fs[..n]).timestampMs {
        assert Stamp(fs[n].event) == Some(t);
      } else if t != s.timestampMs {
        var i :| 0 <= i < n && Stamp(fs[..n][i].event) == Some(t);
        assert Stamp(fs[i].event) == Some(t);
      }
    }
  }

  /** Timestamps in fs never go backwards, and none lies before the clock t0. */
  ghost predicate OrderedStamps(t0: int, fs: seq<Fragment>)
  {
    && (forall i :: 0 <= i < |fs| && Stamp(fs[i].event).Some? ==> t0 <= Stamp(fs[i].event).value)
    && (forall i, j :: 0 <= i < j < |fs| && Stamp(fs[i].event).Some? && Stamp(fs[j].event).Some? ==>
          Stamp(fs[i].event).value <= Stamp(fs[j].event).value)
  }

  lemma OrderedPrefix(t0: int, fs: seq<Fragment>, m: nat)
    requires OrderedStamps(t0, fs) && m <= |fs|
    ensures OrderedStamps(t0, fs[..m])
  {
    assert forall i :: 0 <= i < m ==> fs[..m][i] == fs[i];
  }

  /** On an ordered log the clock never ends below where it started. */
  lemma ClockAtLeastStart(s: ServiceState, fs: seq<Fragment>)
    requires OrderedStamps(s.timestampMs, fs)
    ensures s.timestampMs <= DispatchAll(s, fs).timestampMs
  {
    ClockComesFromLog(s, fs);
  }

  /** On an ordered log, dispatching one more fragment never moves the clock back. */
  lemma ClockStep(s: ServiceState, fs: seq<Fragment>)
    requires fs != [] && OrderedStamps(s.timestampMs, fs)
    ensures DispatchAll(s, fs[..|fs| - 1]).timestampMs <= DispatchAll(s, fs).timestampMs
  {
    var n := |fs| - 1;
    var p := fs[..n];
    ClockComesFromLog(s, p);
    var t := DispatchAll(s, p).timestampMs;
    if Stamp(fs[n].event).Some? && t != s.timestampMs {
      var i :| 0 <= i < n && Stamp(p[i].event) == Some(t);
      assert p[i] == fs[i];
    }
  }

  /**
   * The agent does not enforce a monotonic clock; the clock moves forward only when the log's
   * timestamps do: then no prefix of the log leaves a later clock than the whole log.
   */
  lemma {:induction false} ClockMonotoneOnOrderedLog(s: ServiceState, fs: seq<Fragment>, k: nat)
    requires OrderedStamps(s.timestampMs, fs)
    requires k <= |fs|
    ensures s.timestampMs <= DispatchAll(s, fs[..k]).timestampMs <= DispatchAll(s, fs).timestampMs
    decreases |fs| - k
  {
    OrderedPrefix(s.timestampMs, fs, k);
    ClockAtLeastStart(s, fs[..k]);
    if k < |fs| {
      ClockMonotoneOnOrderedLog(s, fs, k + 1);
      OrderedPrefix(s.timestampMs, fs, k + 1);
      ClockStep(s, fs[..k + 1]);
      assert fs[..k + 1][..k] == fs[..k];
    } else {
      assert fs[..k] == fs;
    }
  }

  /** Nothing stops the clock from moving backwards when the log's timestamps do. */
  lemma ClockCanMoveBackwards()
    ensures exists s: ServiceState, f: Fragment :: Dispatch(s, f).timestampMs < s.timestampMs
  {
    var s := ServiceState(map[], 10, [], []);
    var f := Fragment(Timer(1, 5), 0, 0);
    assert Dispatch(s, f).timestampMs == 5;
  }
}
