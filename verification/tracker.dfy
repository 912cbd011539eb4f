/**
 The session record of orion/tracker.py: which of the two modes the aimer is
 in, plus the optional timestamps, hand, box area and side that the tracking
 loop fills in. Only the record, its construction and `reset` exist in the
 Python code; nothing here decides when the mode changes.
 */
module Tracker {
  import opened Wrappers
  import opened Landmarks

  /** `STATE_IDLE` and `STATE_TRACKING` */
  const StateIdle: int := 0
  const StateTracking: int := 1

  datatype TrackerState = Idle | Tracking

  /** The integer constant orion/tracker.py stores for each mode. */
  function StateCode(s: TrackerState): (code: int)
    ensures code == StateIdle || code == StateTracking
  {
    match s
    case Idle => StateIdle
    case Tracking => StateTracking
  }

  /** Reads a stored integer back as a mode; only the two constants are modes. */
  function StateOfCode(code: int): (s: Option<TrackerState>)
    ensures s.Some? <==> code == StateIdle || code == StateTracking
  {
    if code == StateIdle then Some(Idle)
    else if code == StateTracking then Some(Tracking)
    else None
  }

  /** Every mode survives the trip through its integer constant, and no two modes share one. */
  lemma StateCodeRoundTrip(s: TrackerState, t: TrackerState)
    ensures StateOfCode(StateCode(s)) == Some(s)
    ensures StateCode(s) == StateCode(t) ==> s == t
  {
  }

  /** The fields of a `Tracker` instance; timestamps are seconds as reals. */
  datatype Session = Session(
    state: TrackerState,
    activationStartTime: Option<real>,
    lostStartTime: Option<real>,
    trackedHand: Option<seq<Landmark>>,
    trackedBoxArea: Option<real>,
    trackedHandSide: Option<string>)

  /** Idle with every optional field cleared. */
  predicate IsCleared(t: Session)
  {
    && t.state == Idle
    && t.activationStartTime.None?
    && t.lostStartTime.None?
    && t.trackedHand.None?
    && t.trackedBoxArea.None?
    && t.trackedHandSide.None?
  }

  /** `Tracker()`: a fresh session. */
  function NewTracker(): (t: Session)
    ensures IsCleared(t)
    ensures StateCode(t.state) == StateIdle
  {
    Session(Idle, None, None, None, None, None)
  }

  /** `Tracker.reset`: every field back to its initial value, from any session. */
  function Reset(t: Session): (r: Session)
    ensures IsCleared(r)
    ensures StateCode(r.state) == StateIdle
  {
    t.(state := Idle, activationStartTime := None, lostStartTime := None,
       trackedHand := None, trackedBoxArea := None, trackedHandSide := None)
  }

  /** Only one session is cleared. */
  lemma ClearedIsUnique(a: Session, b: Session)
    requires IsCleared(a) && IsCleared(b)
    ensures a == b
  {
  }

  /** A reset session is indistinguishable from a freshly constructed one. */
  lemma ResetIsFresh(t: Session)
    ensures Reset(t) == NewTracker()
  {
  }

  /** Resetting twice is resetting once. */
  lemma ResetIdempotent(t: Session)
    ensures Reset(Reset(t)) == Reset(t)
  {
  }

  /** Resetting a fresh session changes nothing. */
  lemma ResetFixesFresh()
    ensures Reset(NewTracker()) == NewTracker()
  {
  }
}
