/** The session under concurrency: any number of threads send requests and close
    the session, in any interleaving of their lock, check, send and unlock steps. */
module Lifecycle {
  import opened Wrappers

  /** Where a thread is between entering a request or a close and leaving it. */
  datatype Phase =
    | Idle
    | WantRead | Reading | Sending | Answered            // a request, under the read lock
    | WantWrite | Writing | LoggingOff | LoggedOff | Marked  // a close, under the write lock

  /** What the appliance sees. */
  datatype Signal = Request(thread: nat, token: string) | Reply(thread: nat) | Logoff(token: string) | LogoffReply

  datatype State = State(
    phases: map<nat, Phase>,
    readers: set<nat>, writer: Option<nat>,
    closed: bool, token: string,
    wire: seq<Signal>)
  {
    function Of(thread: nat): Phase {
      if thread in phases then phases[thread] else Idle
    }

    function Moved(thread: nat, phase: Phase): State {
      this.(phases := phases[thread := phase])
    }
  }

  datatype Action = EnterRequest | EnterClose | Advance

  datatype Move = Move(thread: nat, action: Action)

  function Opened(token: string): State {
    State(map[], {}, None, false, token, [])
  }

  /** One step of one thread. A step that has to wait for a lock, or that the
      thread is not at, changes nothing. */
  function After(s: State, move: Move): State {
    var t := move.thread;
    match move.action
    case EnterRequest => if s.Of(t).Idle? then s.Moved(t, WantRead) else s
    case EnterClose => if s.Of(t).Idle? then s.Moved(t, WantWrite) else s
    case Advance =>
      match s.Of(t)
      case Idle => s
      case WantRead => if s.writer.None? then s.Moved(t, Reading).(readers := s.readers + {t}) else s
      case Reading =>
        if s.closed then s.Moved(t, Idle).(readers := s.readers - {t})
        else s.Moved(t, Sending).(wire := s.wire + [Request(t, s.token)])
      case Sending => s.Moved(t, Answered).(wire := s.wire + [Reply(t)])
      case Answered => s.Moved(t, Idle).(readers := s.readers - {t})
      case WantWrite => if s.writer.None? && s.readers == {} then s.Moved(t, Writing).(writer := Some(t)) else s
      case Writing =>
        if s.closed then s.Moved(t, Idle).(writer := None)
        else s.Moved(t, LoggingOff).(wire := s.wire + [Logoff(s.token)])
      case LoggingOff => s.Moved(t, LoggedOff).(wire := s.wire + [LogoffReply])
      case LoggedOff => s.Moved(t, Marked).(closed := true, token := "")
      case Marked => s.Moved(t, Idle).(writer := None)
  }

  function Run(token: string, schedule: seq<Move>): State {
    if schedule == [] then Opened(token) else After(Run(token, schedule[..|schedule| - 1]), schedule[|schedule| - 1])
  }

  // ---- what the appliance may see ----

  /** The threads whose requests are unanswered. */
  function InFlight(wire: seq<Signal>): set<nat> {
    if wire == [] then {}
    else Observed(InFlight(wire[..|wire| - 1]), wire[|wire| - 1])
  }

  function Observed(before: set<nat>, signal: Signal): set<nat> {
    match signal
    case Request(t, _) => before + {t}
    case Reply(t) => before - {t}
    case _ => before
  }

  /** No request is in flight when logoff is sent, none is sent after it, there is
      at most one, and everything is sent with the session's own token. */
  ghost predicate Orderly(wire: seq<Signal>, token: string) {
    && (forall i :: 0 <= i < |wire| && wire[i].Logoff? ==> InFlight(wire[..i]) == {})
    && (forall i, j :: 0 <= i < j < |wire| && wire[i].Logoff? ==> !wire[j].Request? && !wire[j].Logoff?)
    && (forall i :: 0 <= i < |wire| && (wire[i].Request? || wire[i].Logoff?) ==> wire[i].token == token)
  }

  predicate HasLogoff(wire: seq<Signal>) {
    exists i :: 0 <= i < |wire| && wire[i].Logoff?
  }

  // ---- the invariant ----

  predicate HoldsRead(phase: Phase) {
    phase.Reading? || phase.Sending? || phase.Answered?
  }

  predicate HoldsWrite(phase: Phase) {
    phase.Writing? || phase.LoggingOff? || phase.LoggedOff? || phase.Marked?
  }

  ghost predicate Locks(s: State) {
    && (forall t: nat :: t in s.readers <==> HoldsRead(s.Of(t)))
    && (forall t: nat :: s.writer == Some(t) <==> HoldsWrite(s.Of(t)))
    && (s.writer.Some? ==> s.readers == {})
  }

  ghost predicate Flags(s: State, token: string) {
    && s.token == (if s.closed then "" else token)
    && (forall t: nat :: s.Of(t).LoggingOff? || s.Of(t).LoggedOff? ==> !s.closed)
    && (HasLogoff(s.wire) <==>
          s.closed || (s.writer.Some? && (s.Of(s.writer.value).LoggingOff? || s.Of(s.writer.value).LoggedOff?)))
  }

  ghost predicate Traffic(s: State, token: string) {
    Orderly(s.wire, token) && forall t: nat :: t in InFlight(s.wire) <==> s.Of(t).Sending?
  }

  ghost predicate Invariant(s: State, token: string) {
    Locks(s) && Flags(s, token) && Traffic(s, token)
  }

  lemma Extend(wire: seq<Signal>, signal: Signal, token: string)
    requires Orderly(wire, token)
    requires signal.Request? ==> signal.token == token && !HasLogoff(wire)
    requires signal.Logoff? ==> signal.token == token && !HasLogoff(wire) && InFlight(wire) == {}
    ensures Orderly(wire + [signal], token)
    ensures HasLogoff(wire + [signal]) <==> HasLogoff(wire) || signal.Logoff?
    ensures InFlight(wire + [signal]) == Observed(InFlight(wire), signal)
  {
    var longer := wire + [signal];
    assert longer[..|wire|] == wire;
    forall i | 0 <= i < |longer| && longer[i].Logoff? ensures InFlight(longer[..i]) == {} {
      assert longer[..i] == wire[..i];
    }
    if HasLogoff(wire) {
      var i :| 0 <= i < |wire| && wire[i].Logoff?;
      assert longer[i].Logoff?;
    }
    if signal.Logoff? {
      assert longer[|wire|].Logoff?;
    }
  }

  /** Locks are kept by any step that moves one thread and hands the locks over
      accordingly. */
  lemma LocksMoved(s: State, s': State, t: nat)
    requires Locks(s) && s'.phases == s.phases[t := s'.Of(t)]
    requires s'.readers == if HoldsRead(s'.Of(t)) then s.readers + {t} else s.readers - {t}
    requires s'.writer == if HoldsWrite(s'.Of(t)) then Some(t) else if HoldsWrite(s.Of(t)) then None else s.writer
    requires HoldsRead(s'.Of(t)) && !HoldsRead(s.Of(t)) ==> s.writer.None?
    requires HoldsWrite(s'.Of(t)) && !HoldsWrite(s.Of(t)) ==> s.writer.None? && s.readers == {}
    requires !(HoldsRead(s.Of(t)) && HoldsWrite(s'.Of(t))) && !(HoldsWrite(s.Of(t)) && HoldsRead(s'.Of(t)))
    ensures Locks(s')
  {
    forall u: nat
      ensures u in s'.readers <==> HoldsRead(s'.Of(u))
      ensures s'.writer == Some(u) <==> HoldsWrite(s'.Of(u))
    {
      if u != t {
        assert s'.Of(u) == s.Of(u);
      }
    }
  }

  /** Every step keeps the locks: readers and writer are the threads inside, and
      never both. */
  lemma LocksKept(s: State, move: Move)
    requires Locks(s)
    ensures Locks(After(s, move))
  {
    var t := move.thread;
    assert t in s.readers <==> HoldsRead(s.Of(t));
    assert s.writer == Some(t) <==> HoldsWrite(s.Of(t));
    if After(s, move) != s {
      LocksMoved(s, After(s, move), t);
    }
  }

  /** Under the read lock no close is at work, so an open session has not logged off. */
  lemma NotLoggedOff(s: State, t: nat, token: string)
    requires Locks(s) && Flags(s, token) && HoldsRead(s.Of(t)) && !s.closed
    ensures s.writer.None? && !HasLogoff(s.wire)
  {
    assert t in s.readers;
  }

  /** One thread moves on, outside a close; the session stays as open as it was. */
  lemma FlagsMoved(s: State, s': State, t: nat, token: string)
    requires Flags(s, token) && s.writer.None? && s'.writer.None?
    requires s'.closed == s.closed && s'.token == s.token && (HasLogoff(s'.wire) <==> HasLogoff(s.wire))
    requires s'.phases == s.phases[t := s'.Of(t)] && !s'.Of(t).LoggingOff? && !s'.Of(t).LoggedOff?
    ensures Flags(s', token)
  {
    forall u: nat ensures s'.Of(u).LoggingOff? || s'.Of(u).LoggedOff? ==> !s'.closed {
      if u != t {
        assert s'.Of(u) == s.Of(u);
      }
    }
  }

  /** A request goes out only under the read lock, so no close is at work. */
  lemma RequestSent(s: State, t: nat, token: string)
    requires Invariant(s, token) && s.Of(t).Reading? && !s.closed
    ensures Traffic(After(s, Move(t, Advance)), token) && Flags(After(s, Move(t, Advance)), token)
  {
    NotLoggedOff(s, t, token);
    Extend(s.wire, Request(t, s.token), token);
    var s' := After(s, Move(t, Advance));
    assert s' == s.Moved(t, Sending).(wire := s.wire + [Request(t, s.token)]);
    forall u: nat ensures u in InFlight(s'.wire) <==> s'.Of(u).Sending? {
      if u != t {
        assert s'.Of(u) == s.Of(u);
      }
    }
    FlagsMoved(s, s', t, token);
  }

  lemma ReplySeen(s: State, t: nat, token: string)
    requires Invariant(s, token) && s.Of(t).Sending?
    ensures Traffic(After(s, Move(t, Advance)), token) && Flags(After(s, Move(t, Advance)), token)
  {
    assert s.writer.None?;
    Extend(s.wire, Reply(t), token);
  }

  /** Under the write lock no request is in flight. */
  lemma NoneInFlight(s: State, t: nat, token: string)
    requires Locks(s) && Traffic(s, token) && HoldsWrite(s.Of(t))
    ensures s.writer == Some(t) && InFlight(s.wire) == {}
  {
    assert s.writer == Some(t);
    forall u: nat ensures u !in InFlight(s.wire) {
      assert u in s.readers <==> HoldsRead(s.Of(u));
    }
    assert InFlight(s.wire) == {};
  }

  lemma LogoffSent(s: State, t: nat, token: string)
    requires Invariant(s, token) && s.Of(t).Writing? && !s.closed
    ensures Traffic(After(s, Move(t, Advance)), token) && Flags(After(s, Move(t, Advance)), token)
  {
    NoneInFlight(s, t, token);
    Extend(s.wire, Logoff(s.token), token);
    var s' := After(s, Move(t, Advance));
    assert s' == s.Moved(t, LoggingOff).(wire := s.wire + [Logoff(s.token)]);
    forall u: nat ensures u in InFlight(s'.wire) <==> s'.Of(u).Sending? {
      if u != t {
        assert s'.Of(u) == s.Of(u);
      }
    }
    LoggingOffFlags(s, t, token);
  }

  lemma LoggingOffFlags(s: State, t: nat, token: string)
    requires Flags(s, token) && s.Of(t).Writing? && !s.closed && s.writer == Some(t)
    requires HasLogoff(s.wire + [Logoff(s.token)])
    ensures Flags(After(s, Move(t, Advance)), token)
  {
  }

  lemma LogoffAnswered(s: State, t: nat, token: string)
    requires Invariant(s, token) && s.Of(t).LoggingOff?
    ensures Traffic(After(s, Move(t, Advance)), token) && Flags(After(s, Move(t, Advance)), token)
  {
    assert s.writer == Some(t);
    Extend(s.wire, LogoffReply, token);
  }

  /** Marking the session closed, while no other thread is inside. */
  lemma MarkedClosed(s: State, t: nat, token: string)
    requires Invariant(s, token) && s.Of(t).LoggedOff?
    ensures Traffic(After(s, Move(t, Advance)), token) && Flags(After(s, Move(t, Advance)), token)
  {
    assert s.writer == Some(t);
  }

  /** Steps that send nothing and leave the session open or closed as it is. */
  lemma SilentStep(s: State, move: Move, token: string)
    requires Invariant(s, token) && After(s, move).wire == s.wire && !s.Of(move.thread).LoggedOff?
      && !s.Of(move.thread).Sending?
    ensures Traffic(After(s, move), token) && Flags(After(s, move), token)
  {
    var s' := After(s, move);
    forall t: nat ensures s'.Of(t).Sending? <==> s.Of(t).Sending? {
    }
  }

  lemma StepKept(s: State, move: Move, token: string)
    requires Invariant(s, token)
    ensures Invariant(After(s, move), token)
  {
    LocksKept(s, move);
    var t := move.thread;
    if move.action.Advance? {
      match s.Of(t) {
        case Reading => if !s.closed { RequestSent(s, t, token); } else { SilentStep(s, move, token); }
        case Sending => ReplySeen(s, t, token);
        case Writing => if !s.closed { LogoffSent(s, t, token); } else { SilentStep(s, move, token); }
        case LoggingOff => LogoffAnswered(s, t, token);
        case LoggedOff => MarkedClosed(s, t, token);
        case _ => SilentStep(s, move, token);
      }
    } else if s.Of(t).Idle? {
      SilentStep(s, move, token);
    }
  }

  lemma {:induction false} RunInvariant(token: string, schedule: seq<Move>)
    ensures Invariant(Run(token, schedule), token)
  {
    if schedule != [] {
      var earlier := schedule[..|schedule| - 1];
      RunInvariant(token, earlier);
      StepKept(Run(token, earlier), schedule[|schedule| - 1], token);
    }
  }

  /** Whatever the threads do and however they interleave, the appliance sees an
      orderly session. */
  lemma SessionOrderly(token: string, schedule: seq<Move>)
    ensures Orderly(Run(token, schedule).wire, token)
  {
    RunInvariant(token, schedule);
  }
}
