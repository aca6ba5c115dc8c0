/** Managed operations of one client: any number of threads call them, and a lock
    lets one at a time open a session, use it and close it. */
module ManagedQueue {
  import opened Wrappers

  datatype Phase =
    | Outside | Queued | Entered
    | Connected(session: nat)  // authenticated, the partition not yet selected
    | Working(session: nat)
    | Leaving

  /** What reaches the appliance. A lost login opens a session there, but the client
      gets no answer and never learns of it. */
  datatype Signal = Login(session: nat) | Lost(session: nat) | Call(session: nat) | Logout(session: nat)
  {
    predicate Opens() {
      Login? || Lost?
    }
  }

  datatype State = State(phases: map<nat, Phase>, holder: Option<nat>, next: nat, trace: seq<Signal>)
  {
    function Of(thread: nat): Phase {
      if thread in phases then phases[thread] else Outside
    }

    function Moved(thread: nat, phase: Phase): State {
      this.(phases := phases[thread := phase])
    }

    function Told(signal: Signal): State {
      this.(trace := trace + [signal])
    }
  }

  /** The next step of a thread; where the appliance decides, which way it went. */
  datatype Action = Invoke | Advance | Fail | Lose | Use

  datatype Move = Move(thread: nat, action: Action)

  const START := State(map[], None, 0, [])

  /** One step of one thread. A step that has to wait, or that the thread is not
      at, changes nothing. A session is closed on every way out. */
  function After(s: State, move: Move): State {
    var t := move.thread;
    match s.Of(t)
    case Outside => if move.action.Invoke? then s.Moved(t, Queued) else s
    case Queued => if move.action.Advance? && s.holder.None? then s.Moved(t, Entered).(holder := Some(t)) else s
    case Entered =>
      (match move.action
       case Advance => s.Moved(t, Connected(s.next)).(next := s.next + 1).Told(Login(s.next))
       case Fail => s.Moved(t, Leaving)
       case Lose => s.Moved(t, Leaving).(next := s.next + 1).Told(Lost(s.next))
       case _ => s)
    case Connected(k) =>
      (match move.action
       case Use => s.Told(Call(k))
       case Advance => s.Moved(t, Working(k))
       case Fail => s.Moved(t, Leaving).Told(Logout(k))
       case _ => s)
    case Working(k) =>
      (match move.action
       case Use => s.Told(Call(k))
       case Advance => s.Moved(t, Leaving).Told(Logout(k))
       case Fail => s.Moved(t, Leaving).Told(Logout(k))
       case _ => s)
    case Leaving => if move.action.Advance? then s.Moved(t, Outside).(holder := None) else s
  }

  function Run(schedule: seq<Move>): State {
    if schedule == [] then START else After(Run(schedule[..|schedule| - 1]), schedule[|schedule| - 1])
  }

  // ---- what the appliance may see ----

  /** The session that the client has open after these signals. */
  function OpenAfter(trace: seq<Signal>): Option<nat> {
    if trace == [] then None
    else
      match trace[|trace| - 1]
      case Login(k) => Some(k)
      case Lost(_) => OpenAfter(trace[..|trace| - 1])
      case Call(_) => OpenAfter(trace[..|trace| - 1])
      case Logout(_) => None
  }

  /** Sessions follow one another: none opens while another is open, and calls and
      closes belong to the open one. */
  ghost predicate Sequential(trace: seq<Signal>) {
    forall i :: 0 <= i < |trace| ==>
      if trace[i].Opens() then OpenAfter(trace[..i]).None? else OpenAfter(trace[..i]) == Some(trace[i].session)
  }

  /** No session number is used twice. */
  ghost predicate FreshLogins(trace: seq<Signal>, next: nat) {
    && (forall i :: 0 <= i < |trace| && trace[i].Opens() ==> trace[i].session < next)
    && (forall i, j :: 0 <= i < j < |trace| && trace[i].Opens() && trace[j].Opens() ==>
          trace[i].session != trace[j].session)
  }

  predicate Inside(phase: Phase) {
    !phase.Outside? && !phase.Queued?
  }

  function SessionOf(phase: Phase): Option<nat> {
    if phase.Connected? || phase.Working? then Some(phase.session) else None
  }

  ghost predicate Invariant(s: State) {
    && (forall t: nat :: s.holder == Some(t) <==> Inside(s.Of(t)))
    && OpenAfter(s.trace) == (if s.holder.None? then None else SessionOf(s.Of(s.holder.value)))
    && Sequential(s.trace) && FreshLogins(s.trace, s.next)
  }

  lemma TraceExtends(trace: seq<Signal>, signal: Signal, next: nat)
    requires Sequential(trace) && FreshLogins(trace, next)
    requires if signal.Opens() then OpenAfter(trace).None? && signal.session == next
             else OpenAfter(trace) == Some(signal.session)
    ensures Sequential(trace + [signal]) && FreshLogins(trace + [signal], if signal.Opens() then next + 1 else next)
    ensures OpenAfter(trace + [signal]) == if signal.Logout? || signal.Lost? then None else Some(signal.session)
  {
    var longer := trace + [signal];
    assert longer[..|trace|] == trace;
    forall i | 0 <= i < |longer|
      ensures if longer[i].Opens() then OpenAfter(longer[..i]).None?
        else OpenAfter(longer[..i]) == Some(longer[i].session)
    {
      assert longer[..i] == trace[..i];
    }
  }

  lemma HolderMoves(s: State, s': State, t: nat)
    requires forall u: nat :: s.holder == Some(u) <==> Inside(s.Of(u))
    requires s'.phases == s.phases[t := s'.Of(t)]
    requires s'.holder == if Inside(s'.Of(t)) then Some(t) else if Inside(s.Of(t)) then None else s.holder
    requires Inside(s'.Of(t)) && !Inside(s.Of(t)) ==> s.holder.None?
    ensures forall u: nat :: s'.holder == Some(u) <==> Inside(s'.Of(u))
  {
    forall u: nat ensures s'.holder == Some(u) <==> Inside(s'.Of(u)) {
      if u != t {
        assert s'.Of(u) == s.Of(u);
      }
    }
  }

  /** The lock stays with the thread inside. */
  lemma HolderKept(s: State, move: Move)
    requires forall t: nat :: s.holder == Some(t) <==> Inside(s.Of(t))
    ensures forall t: nat :: After(s, move).holder == Some(t) <==> Inside(After(s, move).Of(t))
  {
    var t, s' := move.thread, After(s, move);
    assert s.holder == Some(t) <==> Inside(s.Of(t));
    if s'.phases != s.phases {
      HolderMoves(s, s', t);
    }
  }

  /** What a step of the thread inside tells the appliance, if anything. */
  function Tells(s: State, move: Move): Option<Signal> {
    match s.Of(move.thread)
    case Entered =>
      if move.action.Advance? then Some(Login(s.next)) else if move.action.Lose? then Some(Lost(s.next)) else None
    case Connected(k) =>
      if move.action.Use? then Some(Call(k)) else if move.action.Fail? then Some(Logout(k)) else None
    case Working(k) =>
      if move.action.Use? then Some(Call(k))
      else if move.action.Advance? || move.action.Fail? then Some(Logout(k)) else None
    case _ => None
  }

  /** Steps tell the appliance this and nothing else. */
  lemma TellsExactly(s: State, move: Move)
    ensures After(s, move).trace == s.trace + (if Tells(s, move).Some? then [Tells(s, move).value] else [])
    ensures After(s, move).next == s.next + (if Tells(s, move).Some? && Tells(s, move).value.Opens() then 1 else 0)
  {
  }

  /** A step of the thread inside fits what is open, and moves it accordingly;
      whichever way a thread leaves its session, it closes it. */
  lemma TellsFitting(s: State, move: Move)
    requires Invariant(s)
    ensures Tells(s, move).Some? ==>
      var signal := Tells(s, move).value;
      && (if signal.Opens() then OpenAfter(s.trace).None? && signal.session == s.next
          else OpenAfter(s.trace) == Some(signal.session))
      && SessionOf(After(s, move).Of(move.thread)) ==
         if signal.Logout? || signal.Lost? then None else Some(signal.session)
    ensures SessionOf(s.Of(move.thread)).Some? ==>
      SessionOf(After(s, move).Of(move.thread)) != SessionOf(s.Of(move.thread)) ==>
      Tells(s, move) == Some(Logout(SessionOf(s.Of(move.thread)).value))
  {
    assert s.holder == Some(move.thread) <==> Inside(s.Of(move.thread));
  }

  /** Silent steps of a thread do not change which session it has. */
  lemma SilentKeepsSession(s: State, move: Move)
    requires Tells(s, move).None?
    ensures SessionOf(After(s, move).Of(move.thread)) == SessionOf(s.Of(move.thread))
  {
  }

  /** The open session is that of the thread inside, before and after any step. */
  lemma OpenKept(s: State, s': State, t: nat)
    requires forall u: nat :: s.holder == Some(u) <==> Inside(s.Of(u))
    requires forall u: nat :: s'.holder == Some(u) <==> Inside(s'.Of(u))
    requires forall u: nat :: u != t ==> s'.Of(u) == s.Of(u)
    requires OpenAfter(s.trace) == (if s.holder.None? then None else SessionOf(s.Of(s.holder.value)))
    requires s'.trace == s.trace ==> SessionOf(s'.Of(t)) == SessionOf(s.Of(t))
    requires s'.trace != s.trace ==> OpenAfter(s'.trace) == SessionOf(s'.Of(t)) && Inside(s.Of(t))
    ensures OpenAfter(s'.trace) == (if s'.holder.None? then None else SessionOf(s'.Of(s'.holder.value)))
  {
    assert s.holder == Some(t) <==> Inside(s.Of(t));
    assert s'.holder == Some(t) <==> Inside(s'.Of(t));
    if s'.holder.Some? && s'.holder.value != t {
      assert s.holder == Some(s'.holder.value) <==> Inside(s.Of(s'.holder.value));
    }
    if s.holder.Some? && s.holder.value != t {
      assert s'.holder == Some(s.holder.value) <==> Inside(s'.Of(s.holder.value));
    }
  }

  lemma OthersStay(s: State, move: Move)
    ensures forall u: nat :: u != move.thread ==> After(s, move).Of(u) == s.Of(u)
    ensures Tells(s, move).Some? ==> Inside(s.Of(move.thread))
  {
  }

  lemma StepKept(s: State, move: Move)
    requires Invariant(s)
    ensures Invariant(After(s, move))
  {
    HolderKept(s, move);
    TellsExactly(s, move);
    OthersStay(s, move);
    TellsFitting(s, move);
    if Tells(s, move).Some? {
      TraceExtends(s.trace, Tells(s, move).value, s.next);
    } else {
      SilentKeepsSession(s, move);
    }
    OpenKept(s, After(s, move), move.thread);
  }

  lemma {:induction false} RunInvariant(schedule: seq<Move>)
    ensures Invariant(Run(schedule))
  {
    if schedule != [] {
      RunInvariant(schedule[..|schedule| - 1]);
      StepKept(Run(schedule[..|schedule| - 1]), schedule[|schedule| - 1]);
    }
  }

  /** The session that signal i opened was closed before signal j. */
  ghost predicate ClosedBefore(trace: seq<Signal>, i: nat, j: nat)
    requires i < j <= |trace|
  {
    exists k :: i < k < j && trace[k] == Logout(trace[i].session)
  }

  /** An opened session is open until it is closed. */
  lemma {:induction false} OpenUntilClosed(trace: seq<Signal>, i: nat, j: nat)
    requires Sequential(trace) && i < j <= |trace| && trace[i].Login?
    ensures OpenAfter(trace[..j]) == Some(trace[i].session) || ClosedBefore(trace, i, j)
  {
    assert trace[..j][..j - 1] == trace[..j - 1];
    if j > i + 1 {
      OpenUntilClosed(trace, i, j - 1);
      if ClosedBefore(trace, i, j - 1) {
        var k :| i < k < j - 1 && trace[k] == Logout(trace[i].session);
      }
    }
  }

  /** An open session was opened by a login that was answered. */
  lemma {:induction false} OpenedBy(trace: seq<Signal>, j: nat) returns (i: nat)
    requires j <= |trace| && OpenAfter(trace[..j]).Some?
    ensures i < j && trace[i] == Login(OpenAfter(trace[..j]).value)
  {
    assert trace[..j][..j - 1] == trace[..j - 1];
    if trace[j - 1].Login? {
      i := j - 1;
    } else {
      i := OpenedBy(trace, j - 1);
    }
  }

  /** A session whose login was lost is never used and never closed. */
  ghost predicate NeverTouched(trace: seq<Signal>, i: nat)
    requires i < |trace|
  {
    forall j :: 0 <= j < |trace| && j != i ==> trace[j].session != trace[i].session
  }

  lemma LostIsNeverTouched(trace: seq<Signal>, next: nat, i: nat)
    requires Sequential(trace) && FreshLogins(trace, next) && i < |trace| && trace[i].Lost?
    ensures NeverTouched(trace, i)
  {
    forall j | 0 <= j < |trace| && j != i ensures trace[j].session != trace[i].session {
      var k := j;
      if !trace[j].Opens() {
        k := OpenedBy(trace, j);
      }
      assert trace[k].Opens() && trace[k].session == trace[j].session;
    }
  }

  /** Managed operations of one client never overlap: each closes its session before
      the next opens one, and when none is inside every session whose login was
      answered was closed. One whose login was lost stays open, for the client cannot
      know it. */
  lemma OperationsSequential(schedule: seq<Move>)
    ensures var trace := Run(schedule).trace;
            && Sequential(trace) && FreshLogins(trace, Run(schedule).next)
            && (forall i, j :: 0 <= i < j < |trace| && trace[i].Login? && trace[j].Opens() ==>
                  ClosedBefore(trace, i, j))
    ensures var trace := Run(schedule).trace;
            Run(schedule).holder.None? ==>
              forall i :: 0 <= i < |trace| && trace[i].Login? ==> ClosedBefore(trace, i, |trace|)
    ensures var trace := Run(schedule).trace;
            forall i :: 0 <= i < |trace| && trace[i].Lost? ==> NeverTouched(trace, i)
  {
    RunInvariant(schedule);
    var trace := Run(schedule).trace;
    forall i, j | 0 <= i < j < |trace| && trace[i].Login? && trace[j].Opens() ensures ClosedBefore(trace, i, j) {
      OpenUntilClosed(trace, i, j);
    }
    forall i | 0 <= i < |trace| && trace[i].Lost? ensures NeverTouched(trace, i) {
      LostIsNeverTouched(trace, Run(schedule).next, i);
    }
    assert trace[..|trace|] == trace;
    forall i | 0 <= i < |trace| && trace[i].Login? && Run(schedule).holder.None?
      ensures ClosedBefore(trace, i, |trace|)
    {
      OpenUntilClosed(trace, i, |trace|);
    }
  }
}
