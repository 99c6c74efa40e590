/**
 The terminal spinner guard: a process-wide indicator that remembers whether
 it is spinning, the message it last showed and when it was last started.
 Starting it twice with the same message does nothing, resuming only acts
 when it is stopped, and stopping keeps it on screen for a minimum time.

 Time is a count of milliseconds. The spinner widget itself, the clock and
 the sleep are outside the model: `Start` and `Resume` take the current
 time, `Stop` takes the elapsed time and returns how long it would sleep.
 */
module Spinner {

  /** Minimum time on screen when a message was shown (700 ms). */
  const WithMessageMinDuration: nat := 700

  /** Minimum time on screen when no message was shown (400 ms). */
  const WithoutMessageMinDuration: nat := 400

  datatype Spinner = Spinner(active: bool, lastMessage: string, startedAt: nat)

  /** The package-level state before anything has been started. */
  function Initial(): (r: Spinner)
    ensures !r.active && r.lastMessage == ""
  {
    Spinner(false, "", 0)
  }

  /** The least time the spinner must stay visible once `msg` was shown. */
  function MinVisible(msg: string): (d: nat)
    ensures d == WithMessageMinDuration || d == WithoutMessageMinDuration
  {
    if msg != "" then WithMessageMinDuration else WithoutMessageMinDuration
  }

  /**
   Starts the spinner with `msg` at time `now`. A running spinner already
   showing `msg` is left alone (its start time is kept); in every other
   case the spinner restarts with the new message.
   */
  function Start(sp: Spinner, msg: string, now: nat): (r: Spinner)
    ensures r.active && r.lastMessage == msg
    ensures sp.active && msg == sp.lastMessage ==> r == sp
    ensures !(sp.active && msg == sp.lastMessage) ==> r.startedAt == now
  {
    if sp.active && msg == sp.lastMessage then sp
    else Spinner(true, msg, now)
  }

  /**
   The time `Stop` sleeps before hiding the spinner, written with the
   source's two tests in their order: first the message threshold, then
   the plain one.
   */
  function StopWait(lastMessage: string, elapsed: nat): (w: nat)
    ensures w <= WithMessageMinDuration
    ensures w > 0 ==> elapsed + w == MinVisible(lastMessage)
    ensures elapsed + w >= MinVisible(lastMessage)
  {
    if lastMessage != "" && elapsed < WithMessageMinDuration then
      WithMessageMinDuration - elapsed
    else if elapsed < WithoutMessageMinDuration then
      WithoutMessageMinDuration - elapsed
    else
      0
  }

  /**
   Stops the spinner `elapsed` milliseconds after it was started. Returns
   the new state and the time waited first. The message is remembered so
   that `Resume` can show it again.
   */
  function Stop(sp: Spinner, elapsed: nat): (r: (Spinner, nat))
    ensures !r.0.active
    ensures r.0.lastMessage == sp.lastMessage && r.0.startedAt == sp.startedAt
    ensures r.1 == Shortfall(MinVisible(sp.lastMessage), elapsed)
  {
    (sp.(active := false), StopWait(sp.lastMessage, elapsed))
  }

  /** Restarts a stopped spinner with its last message; a running one is untouched. */
  function Resume(sp: Spinner, now: nat): (r: Spinner)
    ensures sp.active ==> r == sp
    ensures !sp.active ==> r == Spinner(true, sp.lastMessage, now)
  {
    if !sp.active then Start(sp, sp.lastMessage, now) else sp
  }

  /** Independent statement of the wait: the shortfall below the threshold, or nothing. */
  function Shortfall(threshold: nat, elapsed: nat): (w: nat)
    ensures elapsed + w >= threshold
    ensures w > 0 ==> elapsed + w == threshold
  {
    if elapsed < threshold then threshold - elapsed else 0
  }

  /** The source's nested tests compute exactly the shortfall below `MinVisible`. */
  lemma StopWaitIsShortfall(lastMessage: string, elapsed: nat)
    ensures StopWait(lastMessage, elapsed) == Shortfall(MinVisible(lastMessage), elapsed)
  {
  }

  /** Starting twice with the same message is the same as starting once. */
  lemma StartIdempotent(sp: Spinner, msg: string, now: nat, later: nat)
    ensures Start(Start(sp, msg, now), msg, later) == Start(sp, msg, now)
  {
  }

  /** Stopping then resuming brings back the last message, started afresh. */
  lemma ResumeAfterStop(sp: Spinner, elapsed: nat, now: nat)
    ensures Resume(Stop(sp, elapsed).0, now) == Start(sp.(active := false), sp.lastMessage, now)
    ensures Resume(Stop(sp, elapsed).0, now).active
  {
  }

  /**
   Resuming before anything was ever started starts the spinner with the
   empty message, whose minimum visible time is the shorter one.
   */
  lemma ResumeFromInitial(now: nat, elapsed: nat)
    ensures Resume(Initial(), now) == Spinner(true, "", now)
    ensures Stop(Resume(Initial(), now), elapsed).1 == Shortfall(WithoutMessageMinDuration, elapsed)
  {
  }
}
