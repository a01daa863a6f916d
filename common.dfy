/** Optional values, standing for Java references that may be null. */
module Wrappers {
  datatype Option<+T> = None | Some(value: T)
}

/** Positive lengths, for header sizes whose values belong to codecs outside this model. */
module Numbers {
  type PosInt = n: int | n > 0 witness 1
}

/** Visiting the members of a finite set, as an iterator over a Java collection does. */
module Sets {
  /** xs lists every member of s exactly once, in some order. */
  ghost predicate Enumerates<T(!new)>(s: set<T>, xs: seq<T>)
  {
    |xs| == |s| && forall x :: x in s <==> x in xs
  }

  /** Some member of a non-empty set, in no particular order. */
  method Pick<T>(s: set<T>) returns (x: T)
    requires s != {}
    ensures x in s
  {
    x :| x in s;
  }

  /** Moving one member from remaining to done keeps them a disjoint split of whole. */
  lemma {:induction false} MoveOne<T>(done: set<T>, remaining: set<T>, whole: set<T>, x: T)
    requires done + remaining == whole && done !! remaining && x in remaining
    ensures (done + {x}) + (remaining - {x}) == whole && (done + {x}) !! (remaining - {x})
    ensures |done + {x}| == |done| + 1 && |remaining - {x}| == |remaining| - 1
  {
    assert x !in done;
  }

  /** The members of s in the order they are picked. */
  method Enumerate<T(!new)>(s: set<T>) returns (xs: seq<T>)
    ensures Enumerates(s, xs)
  {
    xs := [];
    var remaining := s;
    ghost var done: set<T> := {};
    while remaining != {}
      invariant done + remaining == s && done !! remaining
      invariant |xs| == |done|
      invariant forall x :: x in done <==> x in xs
      decreases |remaining|
    {
      var x := Pick(remaining);
      MoveOne(done, remaining, s, x);
      xs := xs + [x];
      remaining := remaining - {x};
      done := done + {x};
    }
  }
}

/** The exceptions the clustered service agent throws, one constructor per throw site. */
module Errors {
  datatype AgentError =
    | NoLogRecordings              // startup: the archive holds no recording of the log
    | NoRecordingPositionCounter   // startup: the latest recording has no active position counter
    | LogRecordingNotFound         // startup: a ledger id names no discovered recording
    | MultipleReplayImages         // replay: the replay subscription has more than one image
    | ReplayClosedEarly            // replay: a poll did no work and the image was closed
    | ReplayInterrupted            // replay: a poll did no work and the thread was interrupted
    | ReplayIncomplete             // replay: the finite script of polls ran out (see README)
    | TimerRequestFailed           // timers: every claim attempt on the timer publication failed
}
