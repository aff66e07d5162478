/**
 * The pomodoro timer: a 25-minute work phase and a 5-minute break, counted
 * down one second per tick while the timer runs, with a tally of the work
 * sessions completed.
 */
module Pomodoro {

  const WorkMinutes: nat := 25
  const BreakMinutes: nat := 5

  /** The length in seconds of the phase the timer is in. */
  function PhaseSeconds(isBreak: bool): nat {
    (if isBreak then BreakMinutes else WorkMinutes) * 60
  }

  /** `PomodoroTimer`'s state. */
  class PomodoroTimer {
    var minutes: int
    var seconds: int
    var isActive: bool
    var isBreak: bool
    var sessions: nat

    /** The clock shows a proper time (seconds 0-59) no longer than the current phase. */
    predicate Valid()
      reads this
    {
      0 <= minutes && 0 <= seconds < 60 && Remaining() <= PhaseSeconds(isBreak)
    }

    /** The seconds left in the current phase. */
    function Remaining(): int
      reads this
    {
      minutes * 60 + seconds
    }

    /** The "minutes focused" figure. */
    function MinutesFocused(): nat
      reads this
    {
      sessions * WorkMinutes
    }

    /** 25:00, stopped, work phase, no sessions. */
    constructor ()
      ensures Valid()
      ensures minutes == 25 && seconds == 0 && !isActive && !isBreak && sessions == 0
      ensures Remaining() == PhaseSeconds(false) && MinutesFocused() == 0
    {
      minutes := 25;
      seconds := 0;
      isActive := false;
      isBreak := false;
      sessions := 0;
    }

    /**
     * The interval callback, which runs only while the timer is active: one
     * second off the clock, or, at 0:00, the end of the phase.
     */
    method Tick()
      requires Valid() && isActive
      modifies this
      ensures Valid()
      ensures old(Remaining()) > 0 ==>
        Remaining() == old(Remaining()) - 1 && isActive && isBreak == old(isBreak) && sessions == old(sessions)
      ensures old(Remaining()) > 0 ==> minutes == Remaining() / 60 && seconds == Remaining() % 60
      ensures old(Remaining()) == 0 ==> !isActive && isBreak == !old(isBreak) && Remaining() == PhaseSeconds(isBreak)
      ensures old(Remaining()) == 0 ==> sessions == if old(isBreak) then old(sessions) else old(sessions) + 1
    {
      if seconds == 0 {
        if minutes == 0 {
          Complete();
        } else {
          minutes := minutes - 1;
          seconds := 59;
        }
      } else {
        seconds := seconds - 1;
      }
    }

    /**
     * `handleTimerComplete`: the timer stops; a finished work phase counts a
     * session and starts a 5:00 break, a finished break returns to 25:00 work.
     */
    method Complete()
      modifies this
      ensures Valid() && !isActive && isBreak == !old(isBreak) && seconds == 0
      ensures !old(isBreak) ==> minutes == 5 && sessions == old(sessions) + 1 && MinutesFocused() == old(MinutesFocused()) + 25
      ensures old(isBreak) ==> minutes == 25 && sessions == old(sessions)
      ensures Remaining() == PhaseSeconds(isBreak)
    {
      isActive := false;
      if !isBreak {
        sessions := sessions + 1;
        isBreak := true;
        minutes := 5;
        seconds := 0;
      } else {
        isBreak := false;
        minutes := 25;
        seconds := 0;
      }
    }

    /** `toggleTimer`: start or pause; nothing else changes. */
    method Toggle()
      modifies this
      ensures isActive == !old(isActive)
      ensures minutes == old(minutes) && seconds == old(seconds) && isBreak == old(isBreak) && sessions == old(sessions)
    {
      isActive := !isActive;
    }

    /** `resetTimer`: stopped at 25:00 in the work phase; the session tally stays. */
    method Reset()
      modifies this
      ensures Valid() && !isActive && !isBreak && minutes == 25 && seconds == 0
      ensures sessions == old(sessions)
    {
      isActive := false;
      isBreak := false;
      minutes := 25;
      seconds := 0;
    }
  }

  /**
   * The interval firing once a second from a running timer until the phase
   * ends: it reaches 0:00 after as many ticks as there were seconds left, and
   * the next tick ends the phase.
   */
  method RunInterval(t: PomodoroTimer) returns (ticks: nat)
    requires t.Valid() && t.isActive
    modifies t
    ensures ticks == old(t.Remaining()) + 1
    ensures t.Valid() && !t.isActive && t.isBreak == !old(t.isBreak)
    ensures t.sessions == if old(t.isBreak) then old(t.sessions) else old(t.sessions) + 1
  {
    ticks := 0;
    ghost var start := t.Remaining();
    while t.Remaining() > 0
      invariant t.Valid() && t.isActive
      invariant t.isBreak == old(t.isBreak) && t.sessions == old(t.sessions)
      invariant t.Remaining() == start - ticks
      decreases t.Remaining()
    {
      t.Tick();
      ticks := ticks + 1;
    }
    t.Tick();
    ticks := ticks + 1;
  }
}
