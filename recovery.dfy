/**
 * Startup recovery of the clustered service agent (replayPreviousLogs, replayRecording) as
 * functions: which recordings are replayed, in which order, what they do to the service
 * state, when startup fails and when the recording ledger (the recording event log) grows.
 * The archive and its replay images are oracles: the recordings discovered, the position
 * counter lookup, and for each recording id the replay image the archive would hand out.
 */
module Recovery {
  import opened Wrappers
  import opened Errors
  import opened LogDispatch

  /** A recording of the log found in the archive. */
  datatype RecordingInfo = RecordingInfo(recordingId: int, startPosition: int, stopPosition: int)

  /**
   * One controlledPoll of a replay image: the fragments it delivered to the handler, the image
   * position afterwards, and what isClosed() and the thread's interrupt flag report after it.
   */
  datatype PollStep = PollStep(batch: seq<Fragment>, position: int, closed: bool, interrupted: bool)

  /** A connected subscription has at least one image. */
  type ImageCount = n: int | n >= 1 witness 1

  /** The replay subscription the archive opens for one recording, once it is connected. */
  datatype ReplayImage = ReplayImage(imageCount: ImageCount, polls: seq<PollStep>)

  /** Every recording is stored under its own id. */
  ghost predicate Discovered(recordings: map<int, RecordingInfo>)
  {
    forall id :: id in recordings ==> recordings[id].recordingId == id
  }

  datatype PollRun = PollRun(service: ServiceState, position: int, failure: Option<AgentError>)

  /**
   * The poll loop of one replay, from image position position until it reaches stopPosition.
   * A poll that does no work fails the replay when the image is closed or the thread is
   * interrupted; a poll that does work goes on even on a closed image.
   */
  function ReplayPolls(s: ServiceState, position: int, stopPosition: int, polls: seq<PollStep>): (r: PollRun)
    ensures r.failure.None? ==> r.position >= stopPosition
    ensures r.failure.None? || r.failure == Some(ReplayClosedEarly) || r.failure == Some(ReplayInterrupted)
            || r.failure == Some(ReplayIncomplete)
    ensures r.failure == Some(ReplayIncomplete) ==> r.position < stopPosition
    ensures position >= stopPosition ==> r == PollRun(s, position, None)
    ensures position < stopPosition && polls == [] ==> r == PollRun(s, position, Some(ReplayIncomplete))
    // a poll that does no work, on a closed image or an interrupted thread, ends the replay
    ensures position < stopPosition && polls != [] && polls[0].batch == [] && polls[0].closed ==>
              r == PollRun(s, polls[0].position, Some(ReplayClosedEarly))
    ensures position < stopPosition && polls != [] && polls[0].batch == [] && !polls[0].closed
            && polls[0].interrupted ==>
              r == PollRun(s, polls[0].position, Some(ReplayInterrupted))
    // and only such a poll does
    ensures r.failure == Some(ReplayClosedEarly) ==>
              exists i :: 0 <= i < |polls| && polls[i].batch == [] && polls[i].closed
    ensures r.failure == Some(ReplayInterrupted) ==>
              exists i :: 0 <= i < |polls| && polls[i].batch == [] && polls[i].interrupted
    ensures SessionsKeyed(s.sessions) ==> SessionsKeyed(r.service.sessions)
    decreases |polls|
  {
    if position >= stopPosition then PollRun(s, position, None)
    else if polls == [] then PollRun(s, position, Some(ReplayIncomplete))
    else
      var p := polls[0];
      var s' := DispatchAll(s, p.batch);
      assert SessionsKeyed(s.sessions) ==> SessionsKeyed(s'.sessions) by {
        if SessionsKeyed(s.sessions) { DispatchAllKeepsKeyed(s, p.batch); }
      }
      if |p.batch| == 0 && p.closed then PollRun(s', p.position, Some(ReplayClosedEarly))
      else if |p.batch| == 0 && p.interrupted then PollRun(s', p.position, Some(ReplayInterrupted))
      else
        var rest := ReplayPolls(s', p.position, stopPosition, polls[1..]);
        assert rest.failure == Some(ReplayClosedEarly) ==> exists i :: 0 <= i < |polls| && polls[i].batch == [] && polls[i].closed by {
          if rest.failure == Some(ReplayClosedEarly) {
            var i :| 0 <= i < |polls[1..]| && polls[1..][i].batch == [] && polls[1..][i].closed;
            assert polls[i + 1] == polls[1..][i];
          }
        }
        assert rest.failure == Some(ReplayInterrupted) ==> exists i :: 0 <= i < |polls| && polls[i].batch == [] && polls[i].interrupted by {
          if rest.failure == Some(ReplayInterrupted) {
            var i :| 0 <= i < |polls[1..]| && polls[1..][i].batch == [] && polls[1..][i].interrupted;
            assert polls[i + 1] == polls[1..][i];
          }
        }
        rest
  }

  /**
   * The fragments the poll loop of one replay hands to the fragment handler: the batches of the
   * polls it makes, in order, up to the poll that ends it.
   */
  function Consumed(position: int, stopPosition: int, polls: seq<PollStep>): seq<Fragment>
    decreases |polls|
  {
    if position >= stopPosition || polls == [] then []
    else if polls[0].batch == [] && (polls[0].closed || polls[0].interrupted) then []
    else polls[0].batch + Consumed(polls[0].position, stopPosition, polls[1..])
  }

  /** A replay leaves the service exactly as dispatching the delivered fragments in order does. */
  lemma {:induction false} ReplayDispatchesConsumed(s: ServiceState, position: int, stopPosition: int,
                                                    polls: seq<PollStep>)
    ensures ReplayPolls(s, position, stopPosition, polls).service == DispatchAll(s, Consumed(position, stopPosition, polls))
    decreases |polls|
  {
    if position < stopPosition && polls != [] {
      var p := polls[0];
      if !(p.batch == [] && (p.closed || p.interrupted)) {
        var rest := Consumed(p.position, stopPosition, polls[1..]);
        ReplayDispatchesConsumed(DispatchAll(s, p.batch), p.position, stopPosition, polls[1..]);
        DispatchAllAppend(s, p.batch, rest);
      }
    }
  }

  datatype Replay = Replay(service: ServiceState, replayOpened: bool, failure: Option<AgentError>)

  /**
   * Replay of one ledger entry: info is what the recordings map holds for it. A missing
   * recording fails, an empty one is skipped without opening a replay, a replay with more
   * than one image fails, otherwise the image is polled from the start position on.
   */
  function ReplayRecording(s: ServiceState, info: Option<RecordingInfo>, archive: int -> ReplayImage): (r: Replay)
    ensures info.None? ==> r == Replay(s, false, Some(LogRecordingNotFound))
    ensures r.replayOpened <==> info.Some? && info.value.stopPosition - info.value.startPosition != 0
    ensures info.Some? && !r.replayOpened ==> r == Replay(s, false, None)
    ensures r.replayOpened && archive(info.value.recordingId).imageCount > 1 ==>
              r == Replay(s, true, Some(MultipleReplayImages))
    ensures r.failure == Some(LogRecordingNotFound) ==> info.None?
    // a single-image replay of a non-empty recording is the poll loop from start to stop position
    ensures r.replayOpened && archive(info.value.recordingId).imageCount == 1 ==>
              var run := ReplayPolls(s, info.value.startPosition, info.value.stopPosition,
                                     archive(info.value.recordingId).polls);
              r == Replay(run.service, true, run.failure)
    ensures SessionsKeyed(s.sessions) ==> SessionsKeyed(r.service.sessions)
  {
    match info
    case None => Replay(s, false, Some(LogRecordingNotFound))
    case Some(rec) =>
      if rec.stopPosition - rec.startPosition == 0 then Replay(s, false, None)
      else
        var image := archive(rec.recordingId);
        if image.imageCount > 1 then Replay(s, true, Some(MultipleReplayImages))
        else
          var run := ReplayPolls(s, rec.startPosition, rec.stopPosition, image.polls);
          Replay(run.service, true, run.failure)
  }

  /** The last id of a ledger, or -1 (the initial value of lastReplayedRecordingId) if it is empty. */
  function LastOf(ids: seq<int>): int
  {
    if ids == [] then -1 else ids[|ids| - 1]
  }

  /** What the recordings map holds for id. */
  function Lookup(recordings: map<int, RecordingInfo>, id: int): Option<RecordingInfo>
  {
    if id in recordings then Some(recordings[id]) else None
  }

  datatype LedgerRun = LedgerRun(service: ServiceState, replayed: seq<int>, lastReplayed: int, failure: Option<AgentError>)

  /** Replay every id listed in the ledger, in ledger order, stopping at the first failure. */
  function ReplayLedger(s: ServiceState, ids: seq<int>, recordings: map<int, RecordingInfo>,
                        archive: int -> ReplayImage): (r: LedgerRun)
    ensures r.failure.None? ==> r.lastReplayed == LastOf(ids)
    ensures r.failure.None? ==> forall i :: 0 <= i < |ids| ==> ids[i] in recordings
    ensures (exists i :: 0 <= i < |ids| && ids[i] !in recordings) ==> r.failure.Some?
    ensures SessionsKeyed(s.sessions) ==> SessionsKeyed(r.service.sessions)
    decreases |ids|
  {
    if ids == [] then LedgerRun(s, [], -1, None)
    else
      var n := |ids| - 1;
      var prev := ReplayLedger(s, ids[..n], recordings, archive);
      if prev.failure.Some? then prev
      else
        var id := ids[n];
        var rep := ReplayRecording(prev.service, Lookup(recordings, id), archive);
        LedgerRun(rep.service, prev.replayed + (if rep.replayOpened then [recordings[id].recordingId] else []), id, rep.failure)
  }

  /** Replaying one more ledger entry after a successful prefix replays that entry on the prefix's state. */
  lemma ReplayLedgerStep(s: ServiceState, ids: seq<int>, i: nat, recordings: map<int, RecordingInfo>,
                         archive: int -> ReplayImage)
    requires i < |ids|
    requires ReplayLedger(s, ids[..i], recordings, archive).failure.None?
    ensures var prev := ReplayLedger(s, ids[..i], recordings, archive);
      var rep := ReplayRecording(prev.service, Lookup(recordings, ids[i]), archive);
      ReplayLedger(s, ids[..i + 1], recordings, archive) ==
        LedgerRun(rep.service, prev.replayed + (if rep.replayOpened then [recordings[ids[i]].recordingId] else []),
                  ids[i], rep.failure)
  {
    assert ids[..i + 1][..i] == ids[..i];
  }

  /** Once a prefix of the ledger fails to replay, the replay of the whole ledger ends with that failure. */
  lemma {:induction false} LedgerFailureSticks(s: ServiceState, ids: seq<int>, j: nat,
                                               recordings: map<int, RecordingInfo>, archive: int -> ReplayImage)
    requires j <= |ids|
    requires ReplayLedger(s, ids[..j], recordings, archive).failure.Some?
    ensures ReplayLedger(s, ids, recordings, archive) == ReplayLedger(s, ids[..j], recordings, archive)
    decreases |ids|
  {
    if j < |ids| {
      var n := |ids| - 1;
      assert ids[..n][..j] == ids[..j];
      LedgerFailureSticks(s, ids[..n], j, recordings, archive);
    } else {
      assert ids[..j] == ids;
    }
  }

  /** The ids of ids, in order, whose recordings have a non-zero length: those a replay is opened for. */
  function NonEmpty(ids: seq<int>, recordings: map<int, RecordingInfo>): seq<int>
  {
    if ids == [] then []
    else
      var rest := NonEmpty(ids[1..], recordings);
      if ids[0] in recordings && recordings[ids[0]].stopPosition - recordings[ids[0]].startPosition != 0
      then [ids[0]] + rest else rest
  }

  lemma {:induction false} NonEmptySnoc(ids: seq<int>, id: int, recordings: map<int, RecordingInfo>)
    ensures NonEmpty(ids + [id], recordings) ==
      NonEmpty(ids, recordings) +
      (if id in recordings && recordings[id].stopPosition - recordings[id].startPosition != 0 then [id] else [])
    decreases |ids|
  {
    if ids == [] {
      assert [id][1..] == [];
    } else {
      assert (ids + [id])[1..] == ids[1..] + [id];
      NonEmptySnoc(ids[1..], id, recordings);
    }
  }

  /**
   * A successful ledger replay opens a replay for exactly the non-empty recordings the ledger
   * lists, in ledger order (repeats included).
   */
  lemma {:induction false} ReplaysFollowLedgerOrder(s: ServiceState, ids: seq<int>, recordings: map<int, RecordingInfo>,
                                                    archive: int -> ReplayImage)
    requires Discovered(recordings)
    requires ReplayLedger(s, ids, recordings, archive).failure.None?
    ensures ReplayLedger(s, ids, recordings, archive).replayed == NonEmpty(ids, recordings)
    decreases |ids|
  {
    if ids != [] {
      var n := |ids| - 1;
      ReplaysFollowLedgerOrder(s, ids[..n], recordings, archive);
      assert ids == ids[..n] + [ids[n]];
      NonEmptySnoc(ids[..n], ids[n], recordings);
    }
  }

  datatype StartupRun = StartupRun(
    service: ServiceState,
    replayed: seq<int>,
    ledger: seq<int>,
    counterId: Option<int>,
    failure: Option<AgentError>)

  /**
   * replayPreviousLogs: recordings is the map of the log's recordings found in the archive,
   * latestId the key of the latest one, counterId the active position counter found for it.
   * The ledger is appended with the latest recording id exactly when the last replayed id
   * differs from it; nothing is appended when startup fails.
   */
  function Startup(s: ServiceState, ledger: seq<int>, recordings: map<int, RecordingInfo>, latestId: int,
                   counterId: Option<int>, archive: int -> ReplayImage): (r: StartupRun)
    requires recordings != map[] ==> latestId in recordings
    ensures recordings == map[] ==> r == StartupRun(s, [], ledger, None, Some(NoLogRecordings))
    ensures recordings != map[] && counterId.None? ==>
              r == StartupRun(s, [], ledger, None, Some(NoRecordingPositionCounter))
    ensures r.failure.Some? ==> r.ledger == ledger
    ensures r.failure.None? ==>
      var latest := recordings[latestId].recordingId;
      && r.counterId == counterId
      && r.ledger == (if LastOf(ledger) == latest then ledger else ledger + [latest])
      && (latest != -1 ==> r.ledger != [] && r.ledger[|r.ledger| - 1] == latest)
    ensures (exists i :: 0 <= i < |ledger| && ledger[i] !in recordings) ==> r.failure.Some?
    ensures SessionsKeyed(s.sessions) ==> SessionsKeyed(r.service.sessions)
  {
    if recordings == map[] then StartupRun(s, [], ledger, None, Some(NoLogRecordings))
    else if counterId.None? then StartupRun(s, [], ledger, None, Some(NoRecordingPositionCounter))
    else
      var run := ReplayLedger(s, ledger, recordings, archive);
      var latest := recordings[latestId].recordingId;
      if run.failure.Some? then StartupRun(run.service, run.replayed, ledger, counterId, run.failure)
      else
        var ledger' := if run.lastReplayed != latest then ledger + [latest] else ledger;
        StartupRun(run.service, run.replayed, ledger', counterId, None)
  }

  /**
   * Restarting after a successful startup, with the same recordings, does not grow the ledger
   * again: a ledger grows by at most one entry per new latest recording.
   */
  lemma SecondStartupKeepsLedger(s: ServiceState, s': ServiceState, ledger: seq<int>,
                                 recordings: map<int, RecordingInfo>, latestId: int, counterId: Option<int>,
                                 archive: int -> ReplayImage)
    requires latestId in recordings && recordings[latestId].recordingId >= 0
    requires Startup(s, ledger, recordings, latestId, counterId, archive).failure.None?
    ensures var first := Startup(s, ledger, recordings, latestId, counterId, archive);
      var second := Startup(s', first.ledger, recordings, latestId, counterId, archive);
      second.failure.None? ==> second.ledger == first.ledger
  {
  }

  /** A successful startup over an empty ledger leaves the ledger holding just the latest id. */
  lemma EmptyLedgerGetsLatest(s: ServiceState, recordings: map<int, RecordingInfo>, latestId: int,
                              counterId: Option<int>, archive: int -> ReplayImage)
    requires latestId in recordings && recordings[latestId].recordingId >= 0
    requires counterId.Some?
    ensures var r := Startup(s, [], recordings, latestId, counterId, archive);
      r.failure.None? && r.ledger == [recordings[latestId].recordingId] && r.replayed == []
  {
  }
}
