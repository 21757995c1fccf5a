/**
 * The per-instance backup task spawned when an instance is restored
 * (src/implementations/minecraft/mod.rs:524-566). It reacts to one event at a time:
 * an instruction from its queue (None once every sender is gone) or the one-second timer.
 * The race between the two and the copy itself are not modelled; what each event does is.
 */
module Backup {
  import opened Wrappers
  import opened Types
  import opened Cells

  datatype Instruction = SetPeriod(period: Option<u32>) | BackupNow | Pause | Resume

  datatype Event = Received(message: Option<Instruction>) | Tick

  /** Why a backup was taken: on request, or because the period elapsed. */
  datatype Cause = Requested | Scheduled

  /** The task's variables; `paused` is true inside the inner loop that waits for Resume. */
  datatype Sched = Sched(period: Option<u32>, counter: u32, paused: bool, exited: bool)

  /** A step's new variables and the backups it took (in order). */
  datatype Stepped = Stepped(next: Sched, fired: seq<Cause>)

  /** The variables when the task is spawned: the configured period and a zero counter. */
  function Spawned(period: Option<u32>): (s: Sched)
  {
    Sched(period, 0, false, false)
  }

  /** The counter can always be incremented without leaving `u32`. */
  predicate CounterFits(s: Sched)
  {
    s.counter < U32_MAX
  }

  /** One event, with the state that a tick reads from the shared lifecycle cell. */
  function Next(s: Sched, e: Event, observed: ServerState): (r: Stepped)
    ensures |r.fired| <= 1
    ensures CounterFits(s) ==> CounterFits(r.next)
  {
    if s.exited then Stepped(s, [])
    else if s.paused then
      if e == Received(Some(Resume)) then Stepped(s.(paused := false), []) else Stepped(s, [])
    else
      match e
      case Received(None) => Stepped(s.(exited := true), [])
      case Received(Some(SetPeriod(p))) => Stepped(s.(period := p), [])
      case Received(Some(BackupNow)) => Stepped(s, [Requested])
      case Received(Some(Pause)) => Stepped(s.(paused := true), [])
      case Received(Some(Resume)) => Stepped(s, [])
      case Tick =>
        if s.period.Some? && observed == Running then
          var c := s.counter + 1;
          if c >= s.period.value then Stepped(s.(counter := 0), [Scheduled])
          else Stepped(s.(counter := c), [])
        else Stepped(s, [])
  }

  /** A sequence of events processed in order, with the lifecycle state held fixed. */
  function Replay(s: Sched, events: seq<Event>, observed: ServerState): (r: Stepped)
    ensures |r.fired| <= |events|
    ensures CounterFits(s) ==> CounterFits(r.next)
    decreases |events|
  {
    if events == [] then Stepped(s, [])
    else
      var first := Next(s, events[0], observed);
      var rest := Replay(first.next, events[1..], observed);
      Stepped(rest.next, first.fired + rest.fired)
  }

  /** Replaying a non-empty sequence is one step followed by the replay of the rest. */
  lemma ReplayCons(s: Sched, events: seq<Event>, observed: ServerState)
    requires events != []
    ensures Replay(s, events, observed).next
         == Replay(Next(s, events[0], observed).next, events[1..], observed).next
    ensures Replay(s, events, observed).fired
         == Next(s, events[0], observed).fired + Replay(Next(s, events[0], observed).next, events[1..], observed).fired
  {
  }

  /** Sequence concatenation regroups; a separate lemma keeps `ReplayAppend`'s proof small. */
  lemma SeqAssoc<T>(x: seq<T>, y: seq<T>, z: seq<T>)
    ensures x + (y + z) == (x + y) + z
  {
  }

  lemma {:induction false} ReplayAppendNext(s: Sched, a: seq<Event>, b: seq<Event>, observed: ServerState)
    ensures Replay(s, a + b, observed).next == Replay(Replay(s, a, observed).next, b, observed).next
    decreases |a|
  {
    if a == [] {
      assert a + b == b;
    } else {
      assert (a + b)[0] == a[0] && (a + b)[1..] == a[1..] + b;
      ReplayCons(s, a, observed);
      ReplayCons(s, a + b, observed);
      ReplayAppendNext(Next(s, a[0], observed).next, a[1..], b, observed);
    }
  }

  lemma {:induction false} ReplayAppend(s: Sched, a: seq<Event>, b: seq<Event>, observed: ServerState)
    ensures Replay(s, a + b, observed).next == Replay(Replay(s, a, observed).next, b, observed).next
    ensures Replay(s, a + b, observed).fired
         == Replay(s, a, observed).fired + Replay(Replay(s, a, observed).next, b, observed).fired
    decreases |a|
  {
    ReplayAppendNext(s, a, b, observed);
    if a == [] {
      assert a + b == b;
    } else {
      var first := Next(s, a[0], observed);
      assert (a + b)[0] == a[0] && (a + b)[1..] == a[1..] + b;
      ReplayCons(s, a, observed);
      ReplayCons(s, a + b, observed);
      ReplayAppend(first.next, a[1..], b, observed);
      var ra := Replay(first.next, a[1..], observed);
      var rc := Replay(ra.next, b, observed);
      calc {
        Replay(s, a + b, observed).fired;
        first.fired + Replay(first.next, a[1..] + b, observed).fired;
        first.fired + (ra.fired + rc.fired);
        { SeqAssoc(first.fired, ra.fired, rc.fired); }
        (first.fired + ra.fired) + rc.fired;
      }
    }
  }

  // ---- one event at a time ----

  /** A tick touches the counter only when a period is set and the server is Running. */
  lemma TickRule(s: Sched, observed: ServerState)
    requires !s.paused && !s.exited
    ensures var r := Next(s, Tick, observed);
      && r.next.period == s.period && r.next.paused == s.paused && r.next.exited == s.exited
      && (s.period.None? || observed != Running ==> r.next == s && r.fired == [])
      && (s.period.Some? && observed == Running && s.counter + 1 >= s.period.value ==>
            r.next.counter == 0 && r.fired == [Scheduled])
      && (s.period.Some? && observed == Running && s.counter + 1 < s.period.value ==>
            r.next.counter == s.counter + 1 && r.fired == [])
  {
  }

  /** SetPeriod replaces the period and keeps the counter. */
  lemma SetPeriodRule(s: Sched, p: Option<u32>, observed: ServerState)
    requires !s.paused && !s.exited
    ensures Next(s, Received(Some(SetPeriod(p))), observed) == Stepped(s.(period := p), [])
  {
  }

  /** BackupNow takes exactly one backup whatever the server's state. */
  lemma BackupNowRule(s: Sched, observed: ServerState)
    requires !s.paused && !s.exited
    ensures Next(s, Received(Some(BackupNow)), observed) == Stepped(s, [Requested])
  {
  }

  /** A Resume that arrives while not paused does nothing. */
  lemma StrayResumeRule(s: Sched, observed: ServerState)
    requires !s.paused && !s.exited
    ensures Next(s, Received(Some(Resume)), observed) == Stepped(s, [])
  {
  }

  /** A closed queue ends the task when it is not paused. */
  lemma ClosedQueueRule(s: Sched, observed: ServerState)
    requires !s.paused && !s.exited
    ensures Next(s, Received(None), observed) == Stepped(s.(exited := true), [])
  {
  }

  // ---- sequences of events ----

  /** Once the task has ended nothing it receives has any effect, and no backup is taken. */
  lemma {:induction false} EndedIsFinal(s: Sched, events: seq<Event>, observed: ServerState)
    requires s.exited
    ensures Replay(s, events, observed) == Stepped(s, [])
    decreases |events|
  {
    if events != [] {
      EndedIsFinal(s, events[1..], observed);
    }
  }

  /**
   * While paused, everything short of a Resume is swallowed: instructions (BackupNow and
   * SetPeriod included), closed-queue signals and ticks leave every variable as it was.
   */
  lemma {:induction false} PausedSwallows(s: Sched, events: seq<Event>, observed: ServerState)
    requires s.paused && !s.exited
    requires forall i :: 0 <= i < |events| ==> events[i] != Received(Some(Resume))
    ensures Replay(s, events, observed) == Stepped(s, [])
    decreases |events|
  {
    if events != [] {
      PausedSwallows(s, events[1..], observed);
    }
  }

  /**
   * A Pause, any events without a Resume, then a Resume: the whole window is a no-op,
   * so the counter and period afterwards are those from before the Pause.
   */
  lemma PauseWindowIsNoop(s: Sched, window: seq<Event>, observed: ServerState)
    requires !s.paused && !s.exited
    requires forall i :: 0 <= i < |window| ==> window[i] != Received(Some(Resume))
    ensures Replay(s, [Received(Some(Pause))] + window + [Received(Some(Resume))], observed)
         == Stepped(s, [])
  {
    var p := s.(paused := true);
    var pause, resume := [Received(Some(Pause))], [Received(Some(Resume))];
    ReplayAppend(s, pause, window, observed);
    ReplayAppend(s, pause + window, resume, observed);
    PausedSwallows(p, window, observed);
  }

  /** `n` closed-queue signals in a row. */
  function Closed(n: nat): (events: seq<Event>)
    ensures |events| == n && forall i :: 0 <= i < n ==> events[i] == Received(None)
  {
    seq(n, _ => Received(None))
  }

  /**
   * A queue that closes during a pause never ends the task: however many times the
   * closed queue is polled, the task stays paused and alive.
   */
  lemma ClosedWhilePausedNeverEnds(s: Sched, n: nat, observed: ServerState)
    requires s.paused && !s.exited
    ensures Replay(s, Closed(n), observed).next == s
    ensures !Replay(s, Closed(n), observed).next.exited
  {
    PausedSwallows(s, Closed(n), observed);
  }

  /** `n` timer ticks in a row. */
  function Ticks(n: nat): (events: seq<Event>)
    ensures |events| == n && forall i :: 0 <= i < n ==> events[i] == Tick
  {
    seq(n, _ => Tick)
  }

  /** `k` Running ticks that do not reach the period only advance the counter. */
  lemma {:induction false} TicksBelowPeriod(s: Sched, k: nat)
    requires !s.paused && !s.exited && s.period.Some?
    requires s.counter + k < s.period.value
    ensures Replay(s, Ticks(k), Running) == Stepped(s.(counter := s.counter + k), [])
    decreases k
  {
    if k > 0 {
      var t := s.(counter := s.counter + 1);
      assert Next(s, Tick, Running) == Stepped(t, []);
      assert Ticks(k)[1..] == Ticks(k - 1);
      TicksBelowPeriod(t, k - 1);
    }
  }

  /** From counter `c`, the period's remaining `p - c` Running ticks take one backup and reset the counter. */
  lemma TicksReachPeriod(s: Sched)
    requires !s.paused && !s.exited && s.period.Some?
    requires s.counter < s.period.value
    ensures Replay(s, Ticks(s.period.value - s.counter), Running) == Stepped(s.(counter := 0), [Scheduled])
  {
    var p := s.period.value;
    var k := p - s.counter - 1;
    assert Ticks(k + 1) == Ticks(k) + [Tick];
    ReplayAppend(s, Ticks(k), [Tick], Running);
    TicksBelowPeriod(s, k);
    var mid := s.(counter := s.counter + k);
    assert Replay(mid, [Tick], Running) == Next(mid, Tick, Running);
  }

  /**
   * With the server Running throughout and a period `p` of at least one tick, `q * p`
   * ticks from a zero counter take exactly `q` backups: one every `p` ticks.
   */
  lemma {:induction false} PeriodicBackups(s: Sched, q: nat)
    requires !s.paused && !s.exited && s.period.Some? && s.period.value >= 1
    requires s.counter == 0
    ensures Replay(s, Ticks(q * s.period.value), Running) == Stepped(s, seq(q, _ => Scheduled))
    decreases q
  {
    var p := s.period.value;
    if q > 0 {
      assert Ticks(q * p) == Ticks((q - 1) * p) + Ticks(p);
      ReplayAppend(s, Ticks((q - 1) * p), Ticks(p), Running);
      PeriodicBackups(s, q - 1);
      TicksReachPeriod(s);
      assert seq(q, _ => Scheduled) == seq(q - 1, _ => Scheduled) + [Scheduled];
    }
  }

  /** The running task: its variables, the lifecycle cell it reads on each tick, and the backups it took. */
  class BackupTask {
    var period: Option<u32>
    var counter: u32
    var paused: bool
    var exited: bool
    const state: StateCell
    /** The backups taken so far, oldest first. */
    var log: seq<Cause>

    function Snapshot(): (s: Sched)
      reads this
    {
      Sched(period, counter, paused, exited)
    }

    constructor (period: Option<u32>, state: StateCell)
      ensures Snapshot() == Spawned(period) && this.state == state && log == []
    {
      this.period := period;
      counter := 0;
      paused := false;
      exited := false;
      this.state := state;
      log := [];
    }

    /** Handles one event, as one turn of the task's loop (or of its inner Pause loop). */
    method Step(e: Event)
      modifies this
      ensures Snapshot() == Next(old(Snapshot()), e, state.value).next
      ensures log == old(log) + Next(old(Snapshot()), e, state.value).fired
    {
      if exited {
        return;
      }
      if paused {
        if e == Received(Some(Resume)) {
          paused := false;
        }
        return;
      }
      match e {
        case Received(message) =>
          if message.None? {
            exited := true;
          } else {
            match message.value {
              case SetPeriod(p) => period := p;
              case BackupNow => log := log + [Requested];
              case Pause => paused := true;
              case Resume =>
            }
          }
        case Tick =>
          if period.Some? {
            var observed := state.value;
            if observed == Running {
              var c := counter + 1;
              if c >= period.value {
                counter := 0;
                log := log + [Scheduled];
              } else {
                counter := c;
              }
            }
          }
      }
    }

    /** Handles a sequence of events in order, while the lifecycle state stays as it is. */
    method Serve(events: seq<Event>)
      modifies this
      ensures Snapshot() == Replay(old(Snapshot()), events, state.value).next
      ensures log == old(log) + Replay(old(Snapshot()), events, state.value).fired
    {
      var i := 0;
      while i < |events|
        invariant 0 <= i <= |events|
        invariant Snapshot() == Replay(old(Snapshot()), events[..i], state.value).next
        invariant log == old(log) + Replay(old(Snapshot()), events[..i], state.value).fired
      {
        ghost var before := Snapshot();
        Step(events[i]);
        assert events[..i + 1] == events[..i] + [events[i]];
        ReplayAppend(old(Snapshot()), events[..i], [events[i]], state.value);
        assert Replay(before, [events[i]], state.value).fired == Next(before, events[i], state.value).fired;
        i := i + 1;
      }
      assert events[..i] == events;
    }
  }
}
