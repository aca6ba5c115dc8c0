/** Bringing a template back after its new state could not be saved. */
module Restore {
  import opened Wrappers
  import opened Templates
  import opened Revision
  import opened Contents
  import opened Appliance
  import opened Monitor
  import opened Safety
  import opened Names
  import opened Sessions
  import opened Rollback

  // ---- the entry to put back ----

  /** The sole binding of the baseline, or the one the caller named. */
  function PreviousToRestore(bindings: seq<Binding>, named: string): Option<Binding> {
    if |bindings| == 1 then Some(bindings[0])
    else if named != "" then FindBinding(bindings, named)
    else None
  }

  lemma UniqueKeyed(entries: seq<Entry>)
    requires Unique(entries)
    ensures Keyed(multiset(entries))
  {
    forall e, f | e in multiset(entries) && f in multiset(entries) && e.certificate == f.certificate
      ensures e == f && multiset(entries)[e] == 1
    {
      var i :| 0 <= i < |entries| && entries[i] == e;
      var j :| 0 <= j < |entries| && entries[j] == f;
      assert i == j;
      OnlyOnce(entries, i);
    }
  }

  lemma OnlyOnce(entries: seq<Entry>, i: nat)
    requires Unique(entries) && i < |entries|
    ensures multiset(entries)[entries[i]] == 1
  {
    var front, back := entries[..i], entries[i + 1..];
    assert entries == front + [entries[i]] + back;
    assert entries[i] !in front && entries[i] !in back;
  }

  /** Facts about the baseline that hold for a sole writer. */
  ghost predicate Known(run: Run) {
    && Keyed(run.baseline.bindings)
    && (run.current.Some? ==> run.current.value in run.baseline.bindings)
    && (|run.baseline.bindings| == 1 ==> run.current.Some?)
  }

  lemma StartFacts(run: Run, world: World, p: Progress, v: View)
    requires Kept(run, world, p, v)
    ensures Known(run)
  {
    assert Sole(run, world, p, v);
    StartUnique(run);
    UniqueKeyed(EntriesAt(run, run.start));
    assert |multiset(EntriesAt(run, run.start))| == |EntriesAt(run, run.start)|;
  }

  // ---- what can be restored ----

  /** When a rollback can bring the baseline back. If the desired name was free,
      the replaced entry must be one that can be sent again; if it was taken, the
      rollback changes no binding, so there must be nothing to change back. */
  ghost predicate Restorable(run: Run) {
    if Holds(run.baseline.bindings, run.desired.certificate) then
      run.desired in run.baseline.bindings && !Replaces(run.current, run.desired)
    else
      run.current.Some? ==> EntrySendable(run.current.value)
  }

  /** Nothing has to change exactly when the desired entry is bound already and no
      other is to be replaced. */
  lemma GoalIsBaseline(run: Run)
    requires Plan(run) && Known(run)
    ensures run.goal == run.baseline <==> run.desired in run.baseline.bindings && !Replaces(run.current, run.desired)
  {
    GoalEntries(run.baseline, run.desired, run.current, run.desired);
    if Replaces(run.current, run.desired) {
      GoalEntries(run.baseline, run.desired, run.current, run.current.value);
    }
  }

  /** Taking one entry out of a keyed bag and putting it back changes nothing. */
  lemma PutBack(baseline: multiset<Entry>, previous: Entry)
    requires Keyed(baseline) && previous in baseline
    ensures Drop(baseline, previous.certificate) + multiset{previous} == baseline
  {
  }

  lemma DropAbsent(bag: multiset<Entry>, certificate: string)
    requires !Holds(bag, certificate)
    ensures Drop(bag, certificate) == bag
  {
  }

  /** The goal's bag: the old entry out, the new one in. */
  lemma GoalBag(baseline: Content, desired: Entry, previous: Entry)
    requires previous in baseline.bindings && !Holds(baseline.bindings, desired.certificate)
    ensures Replaces(Some(previous), desired)
    ensures Goal(baseline, desired, Some(previous)).bindings ==
      Drop(baseline.bindings, previous.certificate) + multiset{desired}
  {
    assert desired !in baseline.bindings;
    DropAppend(baseline.bindings, desired, previous.certificate);
  }

  /** From the goal, overwriting by name puts the old entry beside the new one;
      removing the new one then gives the baseline. */
  lemma SwapUndone(baseline: multiset<Entry>, dropped: multiset<Entry>, previous: Entry, desired: Entry)
    requires Keyed(baseline) && previous in baseline && !Holds(baseline, desired.certificate)
    requires dropped == Drop(baseline, previous.certificate)
    ensures Drop(Drop(dropped + multiset{desired}, previous.certificate) + multiset{previous}, desired.certificate) ==
      baseline
  {
    assert previous.certificate != desired.certificate;
    DropAppend(dropped, desired, previous.certificate);
    assert Drop(dropped, previous.certificate) == dropped;
    PutBack(baseline, previous);
    assert dropped + multiset{desired} + multiset{previous} == baseline + multiset{desired};
    DropAppend(baseline, desired, desired.certificate);
    DropAbsent(baseline, desired.certificate);
  }

  /** Replacing the sole entry gives the baseline at once. */
  lemma ReplacementUndone(baseline: multiset<Entry>, previous: Entry, desired: Entry)
    requires Keyed(baseline) && previous in baseline && !Holds(baseline, desired.certificate)
    requires |Drop(baseline, previous.certificate) + multiset{desired}| == 1
    ensures baseline == multiset{previous}
    ensures Drop(multiset{previous}, desired.certificate) == multiset{previous}
  {
    PutBack(baseline, previous);
    assert Drop(baseline, previous.certificate) == multiset{};
  }

  /** From the goal, the restoring bind reaches the baseline once the desired
      entry, if still there, is removed. */
  lemma RestoringBind(baseline: Content, desired: Entry, previous: Entry, after: Content)
    requires Keyed(baseline.bindings) && previous in baseline.bindings && !Holds(baseline.bindings, desired.certificate)
    requires BindContent(Goal(baseline, desired, Some(previous)), after, previous)
    ensures Removed(after, desired.certificate) == baseline
  {
    GoalBag(baseline, desired, previous);
    var dropped := Drop(baseline.bindings, previous.certificate);
    SwapUndone(baseline.bindings, dropped, previous, desired);
    if |dropped + multiset{desired}| == 1 {
      ReplacementUndone(baseline.bindings, previous, desired);
    }
  }

  lemma RemovedAbsent(content: Content, certificate: string)
    requires !Holds(content.bindings, certificate)
    ensures Removed(content, certificate) == content
  {
    DropAbsent(content.bindings, certificate);
  }

  /** With no entry to put back, removing the desired one is enough. */
  lemma RestoringUnbind(baseline: Content, desired: Entry)
    requires !Holds(baseline.bindings, desired.certificate)
    ensures Removed(Goal(baseline, desired, None), desired.certificate) == baseline
  {
    assert desired !in baseline.bindings;
    DropAppend(baseline.bindings, desired, desired.certificate);
    DropAbsent(baseline.bindings, desired.certificate);
  }

  // ---- the restoring requests ----

  /** Revision comparison decides equality of content. */
  method SameRevision(a: ClientTemplate, b: ClientTemplate) returns (same: bool)
    ensures same <==> ContentOf(a) == ContentOf(b)
  {
    var left := ComputeRevision(a);
    var right := ComputeRevision(b);
    RestAvoidsReserved(a);
    RestAvoidsReserved(b);
    RevisionInjective(ContentOf(a), ContentOf(b));
    same := left == right;
  }

  function Plain(binding: Option<Binding>): Option<Entry> {
    if binding.None? then None else Some(binding.value.Logical())
  }

  /** The goal could not be saved, and nothing has been deleted. */
  ghost predicate SaveFailed(session: Session)
    reads session, session.device
  {
    && session.Valid() && !session.watch.diverged
    && session.watch.progress.save.Failed? && !session.watch.progress.deleted
  }

  method RestorePrevious(session: Session, template: string, previous: Binding) returns (r: Option<ClientTemplate>)
    requires template == session.run.name && SaveFailed(session) && session.watch.view.read == Some(session.run.goal)
    requires session.run.current == Some(previous.Logical()) && Replaces(session.run.current, session.run.desired)
    requires !Holds(session.run.baseline.bindings, session.run.desired.certificate)
    modifies session`log, session`watch, session.device
    ensures session.Valid() && !session.watch.diverged
    ensures session.watch.progress == old(session.watch.progress).(rebound := session.watch.progress.rebound)
    ensures session.watch.failures >= old(session.watch.failures)
    ensures r.Some? ==> session.watch.view.read == Some(ContentOf(r.value)) && session.watch.progress.rebound
    ensures r.Some? ==> BindingSendable(previous)
    ensures session.sole && r.Some? ==> ContentOf(r.value) == session.Actual()
    ensures session.sole && r.Some? ==> BindContent(old(session.Actual()), session.Actual(), previous.Logical())
    ensures BindingSendable(previous) && session.watch.failures == old(session.watch.failures) ==> r.Some?
  {
    r := None;
    var ok := session.BindCertificate(template, previous);
    if ok {
      r := session.GetClientSSLTemplate(template);
    }
  }

  /** A template holds a name exactly when the search finds it. */
  lemma FoundHolds(template: ClientTemplate, certificate: string)
    ensures FindBinding(template.certificates, certificate).Some? <==> Holds(ContentOf(template).bindings, certificate)
  {
    var found := FindBinding(template.certificates, certificate);
    if found.Some? {
      EntriesMember(template.certificates, found.value.Logical());
    }
    if e :| e in ContentOf(template).bindings && e.certificate == certificate {
      EntriesMember(template.certificates, e);
    }
  }

  method RemoveDesired(session: Session, template: string, shown: ClientTemplate, desired: Binding) returns (ok: bool)
    requires template == session.run.name && SaveFailed(session)
    requires session.watch.view.read == Some(ContentOf(shown)) && desired.Logical() == session.run.desired
    requires session.run.current.Some? ==>
      Replaces(session.run.current, session.run.desired) && session.watch.progress.rebound
    requires !Holds(session.run.baseline.bindings, session.run.desired.certificate)
    modifies session`log, session`watch, session.device
    ensures session.Valid() && !session.watch.diverged
    ensures session.watch.progress == old(session.watch.progress)
    ensures session.watch.failures >= old(session.watch.failures)
    ensures old(session.sole && ContentOf(shown) == session.Actual()) && ok ==>
      session.Actual() == Removed(ContentOf(shown), desired.certificate)
    ensures ValidFileName(desired.certificate) && session.watch.failures == old(session.watch.failures) ==> ok
  {
    ok := true;
    FoundHolds(shown, desired.certificate);
    if FindBinding(shown.certificates, desired.certificate).Some? {
      ok := session.UnbindCertificate(template, desired.certificate);
    } else {
      RemovedAbsent(ContentOf(shown), desired.certificate);
    }
  }

  /** Once the goal is read, the replaced entry is not there: the restoring bind
      is always sent. */
  lemma PreviousGone(baseline: Content, desired: Binding, previous: Binding, shown: ClientTemplate)
    requires Replaces(Some(previous.Logical()), desired.Logical())
    requires ContentOf(shown) == Goal(baseline, desired.Logical(), Some(previous.Logical()))
    ensures !HasBinding(shown.certificates, previous)
  {
    GoalEntries(baseline, desired.Logical(), Some(previous.Logical()), previous.Logical());
    HasBindingMember(shown.certificates, previous);
  }

  lemma PreviousInBaseline(baseline: ClientTemplate, named: string, desired: Binding)
    requires FindBinding(baseline.certificates, desired.certificate).None?
    requires PreviousToRestore(baseline.certificates, named).Some?
    ensures var previous := PreviousToRestore(baseline.certificates, named);
            Replaces(Plain(previous), desired.Logical()) && previous.value.Logical() in ContentOf(baseline).bindings
  {
    EntriesMember(baseline.certificates, PreviousToRestore(baseline.certificates, named).value.Logical());
  }

  /** What the rollback is given: the template as first read, the state that was
      to be saved, and the desired entry, whose names can be sent. */
  ghost predicate Given(run: Run, baseline: ClientTemplate, desired: Binding, named: string) {
    && Planned(run) && ContentOf(baseline) == run.baseline && desired.Logical() == run.desired
    && EntrySendable(run.desired)
    && (FindBinding(baseline.certificates, desired.certificate).None? ==>
          Plain(PreviousToRestore(baseline.certificates, named)) == run.current)
  }

  /** From here only the removal of the desired entry separates the template from
      the baseline. */
  lemma RestoredBut(run: Run, baseline: ClientTemplate, named: string, desired: Binding, after: Content)
    requires Given(run, baseline, desired, named) && Keyed(run.baseline.bindings)
    requires FindBinding(baseline.certificates, desired.certificate).None?
    requires if run.current.Some? then BindContent(run.goal, after, run.current.value) else after == run.goal
    ensures Removed(after, desired.certificate) == run.baseline
  {
    assert Plan(run);
    FoundHolds(baseline, desired.certificate);
    var previous := PreviousToRestore(baseline.certificates, named);
    if previous.Some? {
      PreviousInBaseline(baseline, named, desired);
      RestoringBind(ContentOf(baseline), desired.Logical(), previous.value.Logical(), after);
    } else {
      RestoringUnbind(ContentOf(baseline), desired.Logical());
    }
  }

  /** With the desired name free at the start, an entry to put back has another. */
  lemma NameWasFree(run: Run, baseline: ClientTemplate, desired: Binding, named: string)
    requires Given(run, baseline, desired, named) && FindBinding(baseline.certificates, desired.certificate).None?
    ensures !Holds(run.baseline.bindings, run.desired.certificate)
    ensures run.current.Some? ==> Replaces(run.current, run.desired)
  {
    FoundHolds(baseline, desired.certificate);
    if run.current.Some? {
      PreviousInBaseline(baseline, named, desired);
    }
  }

  /** Puts the replaced entry back, if one was replaced. */
  method EnsurePrevious(session: Session, template: string, baseline: ClientTemplate, shown: ClientTemplate,
      ghost desired: Binding, named: string)
    returns (r: Option<ClientTemplate>)
    requires template == session.run.name && SaveFailed(session) && Given(session.run, baseline, desired, named)
    requires FindBinding(baseline.certificates, desired.certificate).None?
    requires session.watch.view.read == Some(session.run.goal) && ContentOf(shown) == session.run.goal
    requires session.sole ==> session.Actual() == session.run.goal
    modifies session`log, session`watch, session.device
    ensures session.Valid() && !session.watch.diverged
    ensures session.watch.progress == old(session.watch.progress).(rebound := session.watch.progress.rebound)
    ensures session.watch.failures >= old(session.watch.failures)
    ensures r.Some? ==> session.watch.view.read == Some(ContentOf(r.value))
    ensures r.Some? && session.run.current.Some? ==> session.watch.progress.rebound
    ensures session.sole && r.Some? ==> ContentOf(r.value) == session.Actual()
    ensures session.sole && r.Some? ==>
      if session.run.current.Some? then BindContent(session.run.goal, ContentOf(r.value), session.run.current.value)
      else ContentOf(r.value) == session.run.goal
    ensures r.Some? ==> Restorable(session.run)
    ensures Restorable(session.run) && session.watch.failures == old(session.watch.failures) ==> r.Some?
  {
    var previous := PreviousToRestore(baseline.certificates, named);
    r := Some(shown);
    assert Plan(session.run);
    NameWasFree(session.run, baseline, desired, named);
    if previous.Some? {
      PreviousGone(session.run.baseline, desired, previous.value, shown);
      if !HasBinding(shown.certificates, previous.value) {
        r := RestorePrevious(session, template, previous.value);
      }
    }
  }

  /** Puts the replaced entry back, then takes the desired one out. */
  method ReverseBinding(session: Session, template: string, baseline: ClientTemplate, shown: ClientTemplate,
      desired: Binding, named: string)
    returns (ok: bool)
    requires template == session.run.name && SaveFailed(session) && Given(session.run, baseline, desired, named)
    requires FindBinding(baseline.certificates, desired.certificate).None?
    requires session.watch.view.read == Some(session.run.goal) && ContentOf(shown) == session.run.goal
    requires session.sole ==> Known(session.run) && session.Actual() == session.run.goal
    modifies session`log, session`watch, session.device
    ensures session.Valid() && !session.watch.diverged
    ensures session.watch.progress == old(session.watch.progress).(rebound := session.watch.progress.rebound)
    ensures session.watch.failures >= old(session.watch.failures)
    ensures session.sole && ok ==> session.Actual() == session.run.baseline
    ensures ok ==> Restorable(session.run)
    ensures Restorable(session.run) && session.watch.failures == old(session.watch.failures) ==> ok
  {
    NameWasFree(session.run, baseline, desired, named);
    var read := EnsurePrevious(session, template, baseline, shown, desired, named);
    if read.None? {
      return false;
    }
    if session.sole {
      RestoredBut(session.run, baseline, named, desired, ContentOf(read.value));
    }
    ok := RemoveDesired(session, template, read.value, desired);
  }

  datatype Inspection = Matching(template: ClientTemplate) | Faulty(fault: UndoFault)

  /** Reads the template and compares its revision with that of another one. */
  method Inspect(session: Session, template: string, reference: ClientTemplate, otherwise: UndoFault)
    returns (r: Inspection)
    requires template == session.run.name && SaveFailed(session)
    modifies session`log, session`watch, session.device
    ensures SaveFailed(session) && session.watch.progress == old(session.watch.progress)
    ensures session.watch.failures >= old(session.watch.failures)
    ensures session.sole ==> session.Actual() == old(session.Actual())
    ensures r.Matching? ==> ContentOf(r.template) == ContentOf(reference)
    ensures r.Matching? ==> session.watch.view.read == session.watch.view.settled == Some(ContentOf(reference))
    ensures session.sole && r.Matching? ==> session.Actual() == ContentOf(reference)
    ensures session.sole && session.watch.failures == old(session.watch.failures) ==>
      (r.Matching? <==> session.Actual() == ContentOf(reference))
  {
    var read := session.GetClientSSLTemplate(template);
    if read.None? {
      return Faulty(UndoCallFailed);
    }
    var same := SameRevision(read.value, reference);
    r := if same then Matching(read.value) else Faulty(otherwise);
  }

  /** A free name: the baseline is back. A taken one: nothing was changed. */
  ghost predicate RestoredUpTo(run: Run, content: Content) {
    if Holds(run.baseline.bindings, run.desired.certificate) then
      run.desired in run.baseline.bindings && content == run.goal
    else
      Restorable(run) && content == run.baseline
  }

  /** With names as keys, the entry found under the desired name decides whether
      the desired entry is bound. */
  lemma BoundIsSame(run: Run, baseline: ClientTemplate, desired: Binding)
    requires Known(run) && ContentOf(baseline) == run.baseline && desired.Logical() == run.desired
    ensures var bound := FindBinding(baseline.certificates, desired.certificate);
            bound.Some? ==> (SameBinding(bound.value, desired) <==> run.desired in run.baseline.bindings)
  {
    var bound := FindBinding(baseline.certificates, desired.certificate);
    if bound.Some? {
      EntriesMember(baseline.certificates, bound.value.Logical());
    }
  }

  /** The part of the rollback that changes bindings. */
  method RestoreTemplate(session: Session, template: string, baseline: ClientTemplate, expected: ClientTemplate,
      desired: Binding, named: string)
    returns (fault: Option<UndoFault>)
    requires template == session.run.name && SaveFailed(session) && Given(session.run, baseline, desired, named)
    requires ContentOf(expected) == session.run.goal
    requires session.sole ==> Known(session.run) && session.Actual() == session.run.goal
    modifies session`log, session`watch, session.device
    ensures session.Valid() && !session.watch.diverged
    ensures session.watch.progress == old(session.watch.progress).(rebound := session.watch.progress.rebound)
    ensures session.watch.failures >= old(session.watch.failures)
    ensures session.sole && fault.None? ==> RestoredUpTo(session.run, session.Actual())
    ensures session.sole && session.watch.failures == old(session.watch.failures) && Restorable(session.run) ==>
      fault.None?
  {
    if session.sole {
      BoundIsSame(session.run, baseline, desired);
    }
    FoundHolds(baseline, desired.certificate);
    var inspected := Inspect(session, template, expected, ChangedBefore);
    if inspected.Faulty? {
      return Some(inspected.fault);
    }
    var bound := FindBinding(baseline.certificates, desired.certificate);
    fault := None;
    if bound.None? {
      var ok := ReverseBinding(session, template, baseline, inspected.template, desired, named);
      if !ok {
        fault := Some(UndoCallFailed);
      }
    } else if !SameBinding(bound.value, desired) {
      fault := Some(DifferentBaseline);
    }
  }

  /** The saved configuration is the running one and, unless a failed upload left
      a file behind, the stores are as they were. */
  ghost predicate Untraced(run: Run, world: World) {
    && world.saved == world.running
    && (run.exact ==> world.certificates == run.start.certificates && world.keys == run.start.keys)
  }

  /** With its uploads gone and the baseline saved, a run leaves no trace. */
  lemma NoTrace(run: Run, world: World, p: Progress, v: View, uploaded: Material)
    requires Kept(run, world, p, v) && p.save.Restored? && Recorded(p, uploaded)
    requires world.certificates !! uploaded.Certificates() && world.keys !! uploaded.Keys()
    ensures Untraced(run, world)
  {
    assert Sole(run, world, p, v);
  }

  method SaveBaseline(session: Session, uploaded: Material) returns (fault: Option<UndoFault>)
    requires session.Valid() && !session.watch.diverged && session.watch.progress.save.Failed?
    requires Recorded(session.watch.progress, uploaded) && Gone(session.watch.view, uploaded)
    requires session.watch.view.settled == Some(session.run.baseline)
    requires session.sole ==>
      session.device.world.certificates !! uploaded.Certificates() && session.device.world.keys !! uploaded.Keys()
    modifies session`log, session`watch, session.device
    ensures session.Valid() && session.watch.failures >= old(session.watch.failures)
    ensures session.watch.progress == old(session.watch.progress).(save := if fault.None? then Restored else Failed)
    ensures session.watch.view == old(session.watch.view).(read := None)
    ensures session.sole ==> session.device.world.running == old(session.device.world.running)
    ensures session.sole && fault.None? ==> Untraced(session.run, session.device.world)
    ensures session.watch.failures == old(session.watch.failures) ==> fault.None?
  {
    var ok := session.WriteMemory();
    fault := if ok then None else Some(UndoCallFailed);
    if session.sole && ok {
      NoTrace(session.run, session.device.world, session.watch.progress, session.watch.view, uploaded);
    }
  }

  /** Undoes the uploads and saves the restored configuration. */
  method PersistBaseline(session: Session, uploaded: Material) returns (fault: Option<UndoFault>)
    requires session.Valid() && !session.watch.diverged && session.watch.progress.save.Failed?
    requires Recorded(session.watch.progress, uploaded) && uploaded.Sendable()
    requires session.watch.view.settled == Some(session.run.baseline)
    modifies session`log, session`watch, session.device
    ensures session.Valid() && session.watch.failures >= old(session.watch.failures)
    ensures session.watch.progress ==
      old(session.watch.progress).(deleted := session.watch.progress.deleted, save := session.watch.progress.save)
    ensures session.watch.progress.save.Restored? <==> fault.None?
    ensures session.watch.progress.save.Failed? <==> fault.Some?
    ensures fault.None? ==>
      Gone(session.watch.view, uploaded) && session.watch.view.settled == Some(session.run.baseline)
    ensures session.sole ==> session.device.world.running == old(session.device.world.running)
    ensures session.sole && fault.None? ==> Untraced(session.run, session.device.world)
    ensures session.sole && session.watch.failures == old(session.watch.failures) ==> fault.None?
  {
    fault := RollbackUploadedMaterial(session, uploaded);
    if fault.None? {
      fault := SaveBaseline(session, uploaded);
    }
  }

  /** Restores the bindings and verifies that the baseline came back. */
  method RestoreBaseline(session: Session, template: string, baseline: ClientTemplate, expected: ClientTemplate,
      desired: Binding, named: string)
    returns (fault: Option<UndoFault>)
    requires template == session.run.name && SaveFailed(session) && Given(session.run, baseline, desired, named)
    requires ContentOf(expected) == session.run.goal
    requires session.sole ==> Known(session.run) && session.Actual() == session.run.goal
    modifies session`log, session`watch, session.device
    ensures session.Valid() && !session.watch.diverged
    ensures session.watch.progress == old(session.watch.progress).(rebound := session.watch.progress.rebound)
    ensures session.watch.failures >= old(session.watch.failures)
    ensures fault.None? ==> session.watch.view.settled == Some(session.run.baseline)
    ensures session.sole && fault.None? ==> session.Actual() == session.run.baseline && Restorable(session.run)
    ensures session.sole && session.watch.failures == old(session.watch.failures) ==>
      (fault.None? <==> Restorable(session.run))
  {
    if session.sole {
      assert Plan(session.run);
      GoalIsBaseline(session.run);
    }
    fault := RestoreTemplate(session, template, baseline, expected, desired, named);
    if fault.None? {
      var inspected := Inspect(session, template, baseline, NotRestored);
      if inspected.Faulty? {
        fault := Some(inspected.fault);
      }
    }
  }

  /** The client end of a failed save. Without a fault, the baseline was read
      after the last binding change, the uploads are no longer listed, and the
      result was saved; with a fault, it was not. With a sole writer it succeeds
      only if the run is restorable, the appliance is then as it was, and without a
      failing call it succeeds exactly if the run is restorable. */
  method RollbackSynchronization(session: Session, template: string, baseline: ClientTemplate, expected: ClientTemplate,
      desired: Binding, named: string, uploaded: Material)
    returns (fault: Option<UndoFault>)
    requires template == session.run.name && SaveFailed(session) && Given(session.run, baseline, desired, named)
    requires ContentOf(expected) == session.run.goal
    requires Recorded(session.watch.progress, uploaded) && uploaded.Sendable()
    requires session.sole ==> session.Actual() == session.run.goal
    modifies session`log, session`watch, session.device
    ensures session.Valid() && session.watch.failures >= old(session.watch.failures)
    ensures SameMaterial(old(session.watch.progress), session.watch.progress)
    ensures fault.None? ==>
      && session.watch.progress.save.Restored?
      && session.watch.view.settled == Some(session.run.baseline) && Gone(session.watch.view, uploaded)
    ensures fault.Some? ==> session.watch.progress.save.Failed?
    ensures session.sole && fault.None? ==>
      session.Actual() == session.run.baseline && Untraced(session.run, session.device.world) && Restorable(session.run)
    ensures session.sole && session.watch.failures == old(session.watch.failures) ==>
      (fault.None? <==> Restorable(session.run))
  {
    if session.sole {
      StartFacts(session.run, session.device.world, session.watch.progress, session.watch.view);
    }
    fault := RestoreBaseline(session, template, baseline, expected, desired, named);
    if fault.None? {
      fault := PersistBaseline(session, uploaded);
    }
  }
}
