/**
 * The clustered service agent as a class over its mutable fields: the session table, the
 * logical clock, the current log image, the recording ledger, the position counter and the
 * timer publication. Each method is proved against the functions of LogDispatch,
 * TimerGateway and Recovery. The Aeron client, the archive, images and publications are
 * oracles passed in as values.
 */
module ServiceAgent {
  import opened Wrappers
  import opened Errors
  import Sets
  import opened LogDispatch
  import opened TimerGateway
  import opened Recovery

  /** The most fragments one poll of the live log image delivers. */
  const FRAGMENT_LIMIT: nat := 10

  /** What a controlled fragment handler returns to the image it is polled by. */
  datatype Action = Abort | Break | Commit | Continue

  /** A fragment waiting in the live log image, with the image position just after it. */
  datatype Delivery = Delivery(fragment: Fragment, endPosition: int)

  /** The live log image: its position and the fragments it holds beyond that position. */
  datatype LogImage = LogImage(position: int, pending: seq<Delivery>)

  datatype BoundedPollResult = BoundedPollResult(image: LogImage, delivered: seq<Fragment>)

  /**
   * boundedControlledPoll of an image: deliver the longest run of waiting fragments, at most
   * fragmentLimit of them, that all end at or before limitPosition.
   */
  function BoundedPoll(image: LogImage, limitPosition: int, fragmentLimit: nat): (r: BoundedPollResult)
    ensures |r.delivered| <= fragmentLimit && |r.delivered| <= |image.pending|
    decreases |image.pending|
  {
    if fragmentLimit == 0 || image.pending == [] || image.pending[0].endPosition > limitPosition then
      BoundedPollResult(image, [])
    else
      var first := image.pending[0];
      var rest := BoundedPoll(LogImage(first.endPosition, image.pending[1..]), limitPosition, fragmentLimit - 1);
      BoundedPollResult(rest.image, [first.fragment] + rest.delivered)
  }

  /**
   * A bounded poll delivers at most fragmentLimit fragments, in the order they wait in the
   * image, each ending at or before the limit position.
   */
  lemma {:induction false} BoundedPollDeliversInOrder(image: LogImage, limitPosition: int, fragmentLimit: nat)
    ensures var r := BoundedPoll(image, limitPosition, fragmentLimit);
      && |r.delivered| <= fragmentLimit && |r.delivered| <= |image.pending|
      && forall i :: 0 <= i < |r.delivered| ==>
           r.delivered[i] == image.pending[i].fragment && image.pending[i].endPosition <= limitPosition
    decreases |image.pending|
  {
    if !(fragmentLimit == 0 || image.pending == [] || image.pending[0].endPosition > limitPosition) {
      var tail := image.pending[1..];
      BoundedPollDeliversInOrder(LogImage(image.pending[0].endPosition, tail), limitPosition, fragmentLimit - 1);
      assert forall i :: 0 < i < |image.pending| ==> image.pending[i] == tail[i - 1];
    }
  }

  /** A bounded poll stops short of both bounds only at a fragment that ends past the limit. */
  lemma {:induction false} BoundedPollStopsAtLimit(image: LogImage, limitPosition: int, fragmentLimit: nat)
    ensures var n := |BoundedPoll(image, limitPosition, fragmentLimit).delivered|;
      n < fragmentLimit && n < |image.pending| ==> image.pending[n].endPosition > limitPosition
    decreases |image.pending|
  {
    if !(fragmentLimit == 0 || image.pending == [] || image.pending[0].endPosition > limitPosition) {
      var tail := image.pending[1..];
      BoundedPollStopsAtLimit(LogImage(image.pending[0].endPosition, tail), limitPosition, fragmentLimit - 1);
      var n := |BoundedPoll(LogImage(image.pending[0].endPosition, tail), limitPosition, fragmentLimit - 1).delivered|;
      if n < |tail| {
        assert image.pending[n + 1] == tail[n];
      }
    }
  }

  /**
   * After a bounded poll the image holds exactly the fragments not delivered, and its position
   * is the end of the last fragment delivered, which lies at or before the limit.
   */
  lemma {:induction false} BoundedPollAdvancesImage(image: LogImage, limitPosition: int, fragmentLimit: nat)
    ensures var r := BoundedPoll(image, limitPosition, fragmentLimit);
      var n := |r.delivered|;
      && n <= |image.pending|
      && r.image.pending == image.pending[n..]
      && r.image.position == (if n == 0 then image.position else image.pending[n - 1].endPosition)
      && (n > 0 ==> r.image.position <= limitPosition)
    decreases |image.pending|
  {
    if !(fragmentLimit == 0 || image.pending == [] || image.pending[0].endPosition > limitPosition) {
      var tail := image.pending[1..];
      var next := LogImage(image.pending[0].endPosition, tail);
      BoundedPollAdvancesImage(next, limitPosition, fragmentLimit - 1);
      var m := |BoundedPoll(next, limitPosition, fragmentLimit - 1).delivered|;
      assert tail[m..] == image.pending[m + 1..];
      if m > 0 {
        assert tail[m - 1] == image.pending[m];
      }
    }
  }

  class ClusteredServiceAgent {
    var sessionByIdMap: map<int, ClientSession>
    var timestampMs: int
    var latestLogImage: Option<LogImage>
    var recordingEventLog: seq<int>
    var recPositionCounterId: Option<int>
    /** The requests committed to the timer publication, oldest first. */
    var timerPublication: seq<TimerRequest>
    const shouldCloseResources: bool
    /** The calls made into the hosted service, oldest first. */
    ghost var callbacks: seq<Callback>
    /** The resources the agent asked to close, oldest first. */
    ghost var closed: seq<Resource>
    /** The recording ids an archive replay was opened for, oldest first. */
    ghost var replaysOpened: seq<int>

    ghost predicate Valid()
      reads this
    {
      SessionsKeyed(sessionByIdMap)
    }

    /** The part of the agent's state the fragment handler works on. */
    ghost function Service(): ServiceState
      reads this
    {
      ServiceState(sessionByIdMap, timestampMs, callbacks, closed)
    }

    constructor (shouldCloseResources: bool, recordingEventLog: seq<int>)
      ensures Valid()
      ensures this.shouldCloseResources == shouldCloseResources && this.recordingEventLog == recordingEventLog
      ensures sessionByIdMap == map[] && timestampMs == 0 && latestLogImage == None && recPositionCounterId == None
      ensures timerPublication == [] && callbacks == [] && closed == [] && replaysOpened == []
    {
      this.shouldCloseResources := shouldCloseResources;
      this.recordingEventLog := recordingEventLog;
      sessionByIdMap := map[];
      timestampMs := 0;
      latestLogImage := None;
      recPositionCounterId := None;
      timerPublication := [];
      callbacks := [];
      closed := [];
      replaysOpened := [];
    }

    /** onStart: tell the hosted service, then recover from the archive. */
    method OnStart(recordings: map<int, RecordingInfo>, latestId: int, counterId: Option<int>,
                   archive: int -> ReplayImage) returns (failure: Option<AgentError>)
      requires Valid()
      requires recordings != map[] ==> latestId in recordings
      modifies this`sessionByIdMap, this`timestampMs, this`callbacks, this`closed, this`replaysOpened,
               this`recordingEventLog, this`recPositionCounterId
      ensures Valid()
      ensures var r := Startup(old(Service()).(callbacks := old(callbacks) + [Callback.OnStart]),
                               old(recordingEventLog), recordings, latestId, counterId, archive);
        && Service() == r.service && failure == r.failure && recordingEventLog == r.ledger
        && replaysOpened == old(replaysOpened) + r.replayed
        && recPositionCounterId == (if r.counterId.Some? then r.counterId else old(recPositionCounterId))
    {
      callbacks := callbacks + [Callback.OnStart];
      failure := ReplayPreviousLogs(recordings, latestId, counterId, archive);
    }

    /**
     * onClose: if this agent owns its resources, close the log subscription, the timer
     * publication, the response publication of every session in the table, each once, and the
     * ledger.
     */
    method OnClose()
      modifies this`closed
      ensures !shouldCloseResources ==> closed == old(closed)
      ensures shouldCloseResources ==>
        var n := |old(closed)|;
        && |closed| >= n + 3
        && closed[..n + 2] == old(closed) + [LogSubscription, TimerPublication]
        && ClosesEverySession(sessionByIdMap, closed[n + 2..|closed| - 1])
        && closed[|closed| - 1] == Resource.RecordingEventLog
    {
      if shouldCloseResources {
        closed := closed + [LogSubscription, TimerPublication];
        ghost var start := closed;
        var ids := Sets.Enumerate(sessionByIdMap.Keys);
        for i := 0 to |ids|
          invariant closed == start + ResponsePublications(sessionByIdMap, ids[..i])
        {
          closed := closed + [ResponsePublication(sessionByIdMap[ids[i]])];
          assert ids[..i + 1][..i] == ids[..i];
        }
        assert ids[..|ids|] == ids;
        ghost var middle := closed;
        closed := closed + [Resource.RecordingEventLog];
        assert closed[|start|..|closed| - 1] == ResponsePublications(sessionByIdMap, ids);
        assert closed[..|start|] == start;
      }
    }

    /**
     * doWork: clientWork is what the embedded Aeron client invoker reports, recordedPosition
     * the current value of the recording position counter. The log image is polled only when
     * one is set, and never past the recorded position.
     */
    method DoWork(clientWork: nat, recordedPosition: int) returns (workCount: int)
      requires Valid()
      modifies this`latestLogImage, this`sessionByIdMap, this`timestampMs, this`callbacks, this`closed
      ensures Valid()
      ensures old(latestLogImage).None? ==>
        workCount == clientWork && Service() == old(Service()) && latestLogImage == None
      ensures old(latestLogImage).Some? ==>
        var poll := BoundedPoll(old(latestLogImage).value, recordedPosition, FRAGMENT_LIMIT);
        && workCount == clientWork + |poll.delivered|
        && Service() == DispatchAll(old(Service()), poll.delivered)
        && latestLogImage == Some(poll.image)
    {
      workCount := 0;
      workCount := workCount + clientWork;
      if latestLogImage.Some? {
        var poll := BoundedPoll(latestLogImage.value, recordedPosition, FRAGMENT_LIMIT);
        Deliver(poll.delivered);
        latestLogImage := Some(poll.image);
        workCount := workCount + |poll.delivered|;
      }
    }

    /** An image hands fragments to onFragment one by one, in order. */
    method Deliver(fs: seq<Fragment>)
      requires Valid()
      modifies this`sessionByIdMap, this`timestampMs, this`callbacks, this`closed
      ensures Valid()
      ensures Service() == DispatchAll(old(Service()), fs)
    {
      for i := 0 to |fs|
        invariant Valid()
        invariant Service() == DispatchAll(old(Service()), fs[..i])
      {
        var action := OnFragment(fs[i]);
        DispatchAllSnoc(old(Service()), fs[..i], fs[i]);
        assert fs[..i + 1] == fs[..i] + [fs[i]];
      }
      assert fs[..|fs|] == fs;
    }

    /** onFragment: route the decoded event by template id. */
    method OnFragment(f: Fragment) returns (action: Action)
      requires Valid()
      modifies this`sessionByIdMap, this`timestampMs, this`callbacks, this`closed
      ensures Valid()
      ensures Service() == Dispatch(old(Service()), f)
      ensures action == Continue
    {
      match f.event {
        case SessionMessage(clusterSessionId, correlationId, ts) =>
          timestampMs := ts;
          callbacks := callbacks + [OnSessionMessage(clusterSessionId, correlationId, timestampMs,
                                      f.offset + SESSION_HEADER_LENGTH, f.length - SESSION_HEADER_LENGTH)];
        case Timer(correlationId, ts) =>
          timestampMs := ts;
          callbacks := callbacks + [OnTimerEvent(correlationId, timestampMs)];
        case Open(clusterSessionId, ts, responseChannel, responseStreamId) =>
          var session := ClientSession(clusterSessionId, responseChannel, responseStreamId);
          sessionByIdMap := sessionByIdMap[clusterSessionId := session];
          timestampMs := ts;
          callbacks := callbacks + [OnSessionOpen(session, timestampMs)];
        case Close(clusterSessionId, ts, closeReason) =>
          var removed := if clusterSessionId in sessionByIdMap then Some(sessionByIdMap[clusterSessionId]) else None;
          sessionByIdMap := sessionByIdMap - {clusterSessionId};
          if removed.Some? {
            timestampMs := ts;
            closed := closed + [ResponsePublication(removed.value)];
            callbacks := callbacks + [OnSessionClose(removed.value, timestampMs, closeReason)];
          }
        case Other(_) =>
      }
      action := Continue;
    }

    /** getClientSession: the session registered under clusterSessionId, if any. */
    function GetClientSession(clusterSessionId: int): (r: Option<ClientSession>)
      reads this
      ensures r.Some? <==> clusterSessionId in sessionByIdMap
      ensures r.Some? ==> r.value == sessionByIdMap[clusterSessionId]
      ensures Valid() && r.Some? ==> r.value.clusterSessionId == clusterSessionId
    {
      if clusterSessionId in sessionByIdMap then Some(sessionByIdMap[clusterSessionId]) else None
    }

    /** timeMs: the logical clock, the timestamp of the last event that set it. */
    function TimeMs(): (t: int)
      reads this
      ensures t == Service().timestampMs
    {
      timestampMs
    }

    /**
     * scheduleTimer: claim(k) is the outcome of the k-th tryClaim on the timer publication.
     * On the first positive claim the request is committed once; after SEND_ATTEMPTS failed
     * claims the call fails having committed nothing.
     */
    method ScheduleTimer(correlationId: int, deadlineMs: int, claim: nat -> int)
      returns (failure: Option<AgentError>, claimsMade: nat)
      modifies this`timerPublication
      ensures claimsMade == ClaimsMade(claim)
      ensures failure.None? <==> FirstClaim(claim, 0).Some?
      ensures failure.Some? ==> failure == Some(TimerRequestFailed) && timerPublication == old(timerPublication)
      ensures failure.None? ==> timerPublication == old(timerPublication) + [ScheduleTimerRequest(correlationId, deadlineMs)]
    {
      var attempts := SEND_ATTEMPTS;
      claimsMade := 0;
      while true
        invariant 0 < attempts <= SEND_ATTEMPTS && claimsMade + attempts == SEND_ATTEMPTS
        invariant FirstClaim(claim, 0) == FirstClaim(claim, claimsMade)
        invariant timerPublication == old(timerPublication)
        decreases attempts
      {
        var result := claim(claimsMade);
        claimsMade := claimsMade + 1;
        if result > 0 {
          timerPublication := timerPublication + [ScheduleTimerRequest(correlationId, deadlineMs)];
          failure := None;
          return;
        }
        attempts := attempts - 1;
        if attempts <= 0 {
          break;
        }
      }
      failure := Some(TimerRequestFailed);
    }

    /** cancelTimer: as scheduleTimer, with a cancel request that carries only the correlation id. */
    method CancelTimer(correlationId: int, claim: nat -> int)
      returns (failure: Option<AgentError>, claimsMade: nat)
      modifies this`timerPublication
      ensures claimsMade == ClaimsMade(claim)
      ensures failure.None? <==> FirstClaim(claim, 0).Some?
      ensures failure.Some? ==> failure == Some(TimerRequestFailed) && timerPublication == old(timerPublication)
      ensures failure.None? ==> timerPublication == old(timerPublication) + [CancelTimerRequest(correlationId)]
    {
      var attempts := SEND_ATTEMPTS;
      claimsMade := 0;
      while true
        invariant 0 < attempts <= SEND_ATTEMPTS && claimsMade + attempts == SEND_ATTEMPTS
        invariant FirstClaim(claim, 0) == FirstClaim(claim, claimsMade)
        invariant timerPublication == old(timerPublication)
        decreases attempts
      {
        var result := claim(claimsMade);
        claimsMade := claimsMade + 1;
        if result > 0 {
          timerPublication := timerPublication + [CancelTimerRequest(correlationId)];
          failure := None;
          return;
        }
        attempts := attempts - 1;
        if attempts <= 0 {
          break;
        }
      }
      failure := Some(TimerRequestFailed);
    }

    method OnAvailableImage(image: LogImage)
      modifies this`latestLogImage
      ensures latestLogImage == Some(image)
    {
      latestLogImage := Some(image);
    }

    method OnUnavailableImage(image: LogImage)
      modifies this`latestLogImage
      ensures latestLogImage == None
    {
      latestLogImage := None;
    }

    /**
     * replayPreviousLogs: recordings, latestId and counterId are what the archive and the
     * counters report (see Recovery.Startup). Waiting for the live log to connect is not modelled.
     */
    method ReplayPreviousLogs(recordings: map<int, RecordingInfo>, latestId: int, counterId: Option<int>,
                              archive: int -> ReplayImage) returns (failure: Option<AgentError>)
      requires Valid()
      requires recordings != map[] ==> latestId in recordings
      modifies this`sessionByIdMap, this`timestampMs, this`callbacks, this`closed, this`replaysOpened,
               this`recordingEventLog, this`recPositionCounterId
      ensures Valid()
      ensures var r := Startup(old(Service()), old(recordingEventLog), recordings, latestId, counterId, archive);
        && Service() == r.service && failure == r.failure && recordingEventLog == r.ledger
        && replaysOpened == old(replaysOpened) + r.replayed
        && recPositionCounterId == (if r.counterId.Some? then r.counterId else old(recPositionCounterId))
    {
      if |recordings| == 0 {
        return Some(NoLogRecordings);
      }
      var latestRecordingInfo := recordings[latestId];
      if counterId.None? {
        return Some(NoRecordingPositionCounter);
      }
      recPositionCounterId := counterId;
      var lastReplayedRecordingId;
      lastReplayedRecordingId, failure := ReplayLedgerEntries(recordingEventLog, recordings, archive);
      if failure.Some? {
        return;
      }
      if lastReplayedRecordingId != latestRecordingInfo.recordingId {
        recordingEventLog := recordingEventLog + [latestRecordingInfo.recordingId];
      }
      failure := None;
    }

    /**
     * The ledger's forEach in replayPreviousLogs: replay each listed id in order, tracking the
     * last id visited (-1 before the first), and stop at the first failure.
     */
    method ReplayLedgerEntries(ledger: seq<int>, recordings: map<int, RecordingInfo>, archive: int -> ReplayImage)
      returns (lastReplayedRecordingId: int, failure: Option<AgentError>)
      requires Valid()
      modifies this`sessionByIdMap, this`timestampMs, this`callbacks, this`closed, this`replaysOpened
      ensures Valid()
      ensures var run := ReplayLedger(old(Service()), ledger, recordings, archive);
        && Service() == run.service && failure == run.failure
        && replaysOpened == old(replaysOpened) + run.replayed
        && (failure.None? ==> lastReplayedRecordingId == run.lastReplayed)
    {
      lastReplayedRecordingId := -1;
      failure := None;
      ghost var s0 := Service();
      for i := 0 to |ledger|
        invariant Valid()
        invariant var run := ReplayLedger(s0, ledger[..i], recordings, archive);
          && run.failure.None? && failure.None? && Service() == run.service
          && lastReplayedRecordingId == run.lastReplayed
          && replaysOpened == old(replaysOpened) + run.replayed
      {
        var id := ledger[i];
        var recordingInfo := Lookup(recordings, id);
        lastReplayedRecordingId := id;
        ReplayLedgerStep(s0, ledger, i, recordings, archive);
        failure := ReplayRecording(recordingInfo, archive);
        if failure.Some? {
          LedgerFailureSticks(s0, ledger, i + 1, recordings, archive);
          return;
        }
      }
      assert ledger[..|ledger|] == ledger;
    }

    /** replayRecording: replay one ledger entry through the fragment handler. */
    method ReplayRecording(info: Option<RecordingInfo>, archive: int -> ReplayImage) returns (failure: Option<AgentError>)
      requires Valid()
      modifies this`sessionByIdMap, this`timestampMs, this`callbacks, this`closed, this`replaysOpened
      ensures Valid()
      ensures var r := Recovery.ReplayRecording(old(Service()), info, archive);
        && Service() == r.service && failure == r.failure
        && replaysOpened == old(replaysOpened) + (if r.replayOpened then [info.value.recordingId] else [])
    {
      if info.None? {
        return Some(LogRecordingNotFound);
      }
      var recordingInfo := info.value;
      var length := recordingInfo.stopPosition - recordingInfo.startPosition;
      if length == 0 {
        return None;
      }
      var replay := archive(recordingInfo.recordingId);
      replaysOpened := replaysOpened + [recordingInfo.recordingId];
      if replay.imageCount > 1 {
        return Some(MultipleReplayImages);
      }
      ghost var s0 := Service();
      var position := recordingInfo.startPosition;
      var i := 0;
      assert replay.polls[0..] == replay.polls;
      while position < recordingInfo.stopPosition
        invariant 0 <= i <= |replay.polls|
        invariant Valid()
        invariant ReplayPolls(Service(), position, recordingInfo.stopPosition, replay.polls[i..])
               == ReplayPolls(s0, recordingInfo.startPosition, recordingInfo.stopPosition, replay.polls)
        invariant replaysOpened == old(replaysOpened) + [recordingInfo.recordingId]
        decreases |replay.polls| - i
      {
        if i == |replay.polls| {
          return Some(ReplayIncomplete);
        }
        var step := replay.polls[i];
        assert replay.polls[i..][1..] == replay.polls[i + 1..];
        Deliver(step.batch);
        var workCount := |step.batch|;
        position := step.position;
        i := i + 1;
        if workCount == 0 {
          if step.closed {
            return Some(ReplayClosedEarly);
          }
          if step.interrupted {
            return Some(ReplayInterrupted);
          }
        }
      }
      failure := None;
    }
  }
}
