/** The state machine the robot commands step once per tick (TrcStateMachine with its TrcEvent).
    Its source is not part of this model: it is represented by the behaviour the commands rely on.
    A machine is in a state, is enabled or not, and may be waiting for an event that moves it to a
    next state once signalled. */
module TrcStateMachine {
  import opened Wrappers

  datatype Wait<S> = Wait(signalled: bool, next: S)

  datatype Machine<S> = Machine(state: S, enabled: bool, pending: Option<Wait<S>>)

  /** start(state): enabled, in that state, waiting for nothing. */
  function Start<S>(s: S): (m: Machine<S>)
    ensures m.state == s && m.enabled && m.pending.None? && IsReady(m)
  {
    Machine(s, true, None)
  }

  /** Ready unless a wait is pending on an event not yet signalled. */
  predicate IsReady<S>(m: Machine<S>)
  {
    m.pending.None? || m.pending.value.signalled
  }

  /** The event of the pending wait fires; without a pending wait nothing changes. */
  function Signal<S>(m: Machine<S>): (r: Machine<S>)
    ensures r.state == m.state && r.enabled == m.enabled
    ensures m.pending.Some? ==> IsReady(r) && r.pending.Some? && r.pending.value.next == m.pending.value.next
    ensures m.pending.None? ==> r == m
  {
    if m.pending.Some? then m.(pending := Some(m.pending.value.(signalled := true))) else m
  }

  /** What a ready machine reports as its state: a signalled wait is completed by moving to its
      next state. */
  function Resolve<S>(m: Machine<S>): (r: Machine<S>)
    requires IsReady(m)
    ensures r.pending.None? && r.enabled == m.enabled
    ensures r.state == if m.pending.Some? then m.pending.value.next else m.state
  {
    Machine(if m.pending.Some? then m.pending.value.next else m.state, m.enabled, None)
  }

  /** setState: moves immediately; any pending wait is dropped. */
  function SetState<S>(m: Machine<S>, s: S): (r: Machine<S>)
    ensures r.state == s && r.enabled == m.enabled && r.pending.None?
  {
    m.(state := s, pending := None)
  }

  /** waitForSingleEvent: stays in the current state until the event fires, then moves to `next`. */
  function WaitForEvent<S>(m: Machine<S>, next: S): (r: Machine<S>)
    ensures r.state == m.state && r.enabled == m.enabled && !IsReady(r)
    ensures Resolve(Signal(r)).state == next
  {
    m.(pending := Some(Wait(false, next)))
  }

  /** stop: disables the machine and nothing else. */
  function Stop<S>(m: Machine<S>): (r: Machine<S>)
    ensures !r.enabled && r.state == m.state && r.pending == m.pending
  {
    m.(enabled := false)
  }
}
