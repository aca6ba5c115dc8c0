/** Repeating a synchronization, after it was completed or after it failed. */
module Repetition {
  import opened Wrappers
  import opened Templates
  import opened Revision
  import opened Contents
  import opened Appliance
  import opened Monitor
  import opened Safety
  import opened Names
  import opened Sessions
  import opened Restore
  import opened Targets
  import opened Checks
  import opened Uploads
  import opened Rotation
  import opened Sync
  import opened Synchronization
  import Traces

  // ---- the states that a run leaves ----

  ghost function Left(run: Run, world: World): Content
    requires run.name in world.running.clients
  {
    SlotContent(run.name, world.running.clients[run.name])
  }

  lemma SameKeyed(a: multiset<Entry>, b: multiset<Entry>)
    requires Keyed(a) && Keyed(b) && forall e :: e in a <==> e in b
    ensures a == b
  {
    forall e ensures a[e] == b[e] {
      if e in a {
        assert a[e] == 1 && b[e] == 1;
      }
    }
  }

  lemma InEntries(entries: seq<Entry>, e: Entry)
    ensures e in entries <==> e in multiset(entries)
  {
  }

  /** The old or the desired entry, every unselected one unless the desired entry
      displaced it, and nothing else. */
  ghost predicate PartlyRotated(run: Run, left: Content) {
    && left == run.baseline.(bindings := left.bindings) && Keyed(left.bindings)
    && (run.current.Some? ==> run.current.value in left.bindings || run.desired in left.bindings)
    && (forall e :: e in run.baseline.bindings && Some(e) != run.current ==>
          e in left.bindings || (e.certificate == run.desired.certificate && run.desired in left.bindings))
    && (forall e :: e in left.bindings ==> e in run.baseline.bindings || e == run.desired)
  }

  /** What a sole writer's run leaves in the template. */
  lemma LeftEntries(run: Run, world: World, p: Progress, v: View)
    requires Kept(run, world, p, v)
    ensures run.name in world.running.clients && Known(run) && PartlyRotated(run, Left(run, world))
  {
    StartFacts(run, world, p, v);
    assert Sole(run, world, p, v);
    UniqueKeyed(EntriesAt(run, world));
    forall e ensures e in EntriesAt(run, world) <==> e in Left(run, world).bindings {
      InEntries(EntriesAt(run, world), e);
    }
    forall e ensures e in EntriesAt(run, run.start) <==> e in run.baseline.bindings {
      InEntries(EntriesAt(run, run.start), e);
    }
  }

  /** Unless it is the baseline, the state that is left binds the desired entry. */
  lemma LeftBaselineOrDesired(run: Run, world: World, p: Progress, v: View)
    requires Kept(run, world, p, v)
    ensures run.name in world.running.clients
    ensures Left(run, world) == run.baseline || run.desired in Left(run, world).bindings
  {
    LeftEntries(run, world, p, v);
    if run.desired !in Left(run, world).bindings {
      SameKeyed(Left(run, world).bindings, run.baseline.bindings);
    }
  }

  /** With both entries bound the state is the appended one. */
  lemma BothLeft(run: Run, left: Content)
    requires Plan(run) && Known(run) && !Occupied(run) && PartlyRotated(run, left)
    requires run.desired in left.bindings && (run.current.Some? ==> run.current.value in left.bindings)
    ensures left == run.added
  {
    SameKeyed(left.bindings, run.added.bindings);
  }

  /** With only the desired one bound it is the goal. */
  lemma DesiredLeft(run: Run, left: Content)
    requires Plan(run) && Known(run) && !Occupied(run) && PartlyRotated(run, left)
    requires run.desired in left.bindings && run.current.Some? && run.current.value !in left.bindings
    ensures left == run.goal
  {
    forall e ensures e in left.bindings <==> e in run.goal.bindings {
      GoalEntries(run.baseline, run.desired, run.current, e);
    }
    SameKeyed(left.bindings, run.goal.bindings);
  }

  lemma PlanKept(run: Run, world: World, p: Progress, v: View)
    requires Kept(run, world, p, v)
    ensures Plan(run)
  {
    assert Sole(run, world, p, v);
    assert Plan(run);
  }

  /** If the name was free or bound as desired, a run leaves the baseline, the state
      with both entries, or the goal; nothing else, however it ends. */
  lemma StatesLeft(run: Run, world: World, p: Progress, v: View)
    requires Kept(run, world, p, v) && !Occupied(run)
    ensures run.name in world.running.clients
    ensures Left(run, world) in {run.baseline, run.added, run.goal}
  {
    LeftEntries(run, world, p, v);
    LeftBaselineOrDesired(run, world, p, v);
    PlanKept(run, world, p, v);
    var left := Left(run, world);
    if run.desired in left.bindings {
      if run.current.Some? && run.current.value !in left.bindings {
        DesiredLeft(run, left);
      } else {
        BothLeft(run, left);
      }
    }
  }

  // ---- what the next run selects ----

  /** The same names select the same entry of the same template. */
  lemma SelectedOnce(baseline: Content, desired: Entry, a: Option<Entry>, b: Option<Entry>, named: string)
    requires Keyed(baseline.bindings)
    requires SelectedRightly(baseline, desired, a, named) && SelectedRightly(baseline, desired, b, named)
    ensures a == b
  {
    if named == "" && desired !in baseline.bindings && a.Some? {
      OnlyOne(baseline.bindings, a.value);
    }
  }

  /** A run that starts from its own goal selects the desired entry, whose files
      exist: there is nothing to do, and no obstacle. */
  lemma RepeatHasNothingToDo(run: Run, world: World, p: Progress, v: View)
    requires Kept(run, world, p, v) && run.desired in run.baseline.bindings && EntrySendable(run.desired)
    requires SelectedRightly(run.baseline, run.desired, run.current, "")
    ensures Traces.NothingToDo(run) && run.goal == run.baseline
    ensures !Occupied(run) && OldSendable(run)
  {
    StartFacts(run, world, p, v);
    assert Sole(run, world, p, v);
    assert run.desired in EntriesAt(run, run.start);
    assert SlotResolved(run.start.running.clients[run.name], run.start.certificates, run.start.keys);
    assert Plan(run);
    GoalIsBaseline(run);
  }

  lemma GoalSelectable(template: ClientTemplate, desired: Binding)
    requires Keyed(ContentOf(template).bindings) && desired.Logical() in ContentOf(template).bindings
    ensures !SelectCurrentBinding(template.certificates, "", desired).Unselectable?
  {
    FoundIsDesired(template, desired);
  }

  /** After a synchronization has reached its goal, repeating it for the template,
      with the same bundle and options, sends nothing but reads and leaves the
      appliance as it is, whichever reads fail; if none does it succeeds and reports
      no change. (An expected revision would be that of the first baseline and is
      not repeated.) */
  method SyncAgain(session: Session, template: string, bundle: Bundle, options: Options)
    returns (result: SyncResult, fault: Option<Fault>, ghost started: bool)
    requires session.Valid() && session.sole && session.run.name == template && session.Actual() == session.run.goal
    requires WellFormedDigest(bundle.checksum) && options.expectedRevision.None?
    requires var names := NamesForTarget(bundle.checksum, bundle.chain != [], options.namePrefix, template);
             names.Some? && session.run.desired == DesiredBinding(names.value, options.shared).Logical()
    requires Managed(session.run.desired, bundle) && MetadataFits(session.device.world, session.run.desired, bundle)
    modifies session, session.device
    ensures session.device.world == old(session.device.world)
    ensures !started ==>
      fault in {Some(Invalid), Some(Unsupported), Some(CallFailed)} && (fault == Some(Invalid) ==> !bundle.valid)
    ensures started ==>
      && session.watch.progress == NOTHING_SENT
      && forall i :: 0 <= i < |session.log| ==> IsRead(session.log[i].event)
    ensures started && session.watch.failures == 0 ==>
      fault.None? && !result.changed && result.finalRevision == Some(RevisionOf(old(session.run.goal)))
  {
    SaneAfter(session.run, session.device.world, session.watch.progress, session.watch.view);
    DesiredManaged(Target(template, ""), bundle, options);
    ghost var names := NamesForTarget(bundle.checksum, bundle.chain != [], options.namePrefix, template).value;
    ghost var desired := DesiredBinding(names, options.shared);
    ghost var seen;
    result, fault, started, seen := SyncCertificate(session, Target(template, ""), bundle, options);
    if !started && seen.Some? {
      GoalSelectable(seen.value, desired);
    }
    if started {
      BaselineIsStart(session.run, session.device.world, session.watch.progress, session.watch.view);
      RepeatHasNothingToDo(session.run, session.device.world, session.watch.progress, session.watch.view);
      Traces.NothingRequested(session.run, session.log, session.watch);
    }
  }

  // ---- after an interruption ----

  /** The goal of the next run: that of the first one, except that a call that names
      no certificate finds the desired entry bound and takes the old one beside it as
      a bystander. */
  ghost function NextGoal(run: Run, left: Content, named: string): Content {
    if named == "" && left == run.added then run.added else run.goal
  }

  lemma SelectsDesiredAgain(run: Run, next: Run, left: Content)
    requires Plan(next) && next.baseline == left && next.desired == run.desired && Keyed(left.bindings)
    requires run.desired in left.bindings && SelectedRightly(left, run.desired, next.current, "")
    ensures next.goal == left && !Replaces(next.current, next.desired)
  {
  }

  /** Naming the old certificate beside the desired one removes it. */
  lemma SelectsOldAgain(run: Run, next: Run, named: string)
    requires Plan(run) && Plan(next) && Known(run) && !Occupied(run) && Keyed(run.added.bindings)
    requires named != "" && SelectedRightly(run.baseline, run.desired, run.current, named)
    requires next.baseline == run.added && next.desired == run.desired
    requires SelectedRightly(run.added, run.desired, next.current, named)
    ensures next.current == run.current || !Replaces(next.current, next.desired)
    ensures next.goal == run.goal
  {
    if run.current.value.certificate != run.desired.certificate {
      assert run.current.value in run.added.bindings;
    }
  }

  lemma NextPlan(run: Run, next: Run, left: Content, named: string)
    requires Plan(run) && Plan(next) && Known(run) && !Occupied(run)
    requires left in {run.baseline, run.added, run.goal} && Keyed(left.bindings)
    requires next.baseline == left && next.desired == run.desired
    requires SelectedRightly(run.baseline, run.desired, run.current, named)
    requires SelectedRightly(left, run.desired, next.current, named)
    ensures next.goal == NextGoal(run, left, named) && !Occupied(next)
    ensures Replaces(next.current, next.desired) ==> next.current == run.current
  {
    if left == run.baseline {
      SelectedOnce(left, run.desired, run.current, next.current, named);
    } else {
      GoalEntries(run.baseline, run.desired, run.current, run.desired);
      assert run.desired in left.bindings;
      if named == "" {
        SelectsDesiredAgain(run, next, left);
      } else if left == run.added {
        SelectsOldAgain(run, next, named);
      }
    }
  }

  /** The next call is refused a selection only if it names a certificate that is no
      longer bound. */
  lemma Unselected(run: Run, template: ClientTemplate, named: string, desired: Binding)
    requires SelectCurrentBinding(template.certificates, named, desired).Unselectable?
    requires Keyed(ContentOf(template).bindings) && desired.Logical() == run.desired
    requires ContentOf(template) == run.baseline || run.desired in ContentOf(template).bindings
    requires SelectedRightly(run.baseline, run.desired, run.current, named)
    ensures named != "" && !Holds(ContentOf(template).bindings, named)
  {
    assert |ContentOf(template).bindings| == |template.certificates|;
    if named != "" {
      FoundHolds(template, named);
    } else {
      FoundIsDesired(template, desired);
    }
  }

  /** Without a failing call, the next run reaches its goal. */
  ghost predicate NextReaches(session: Session, bundle: Bundle, fault: Option<Fault>)
    requires Managed(session.run.desired, bundle)
    reads session, session.device
  {
    session.watch.failures == 0 && MetadataFits(session.run.start, session.run.desired, bundle) ==>
      fault.None? && session.Actual() == session.run.goal
  }

  lemma GoalReached(session: Session, options: Options, bundle: Bundle, result: SyncResult, fault: Option<Fault>)
    requires session.sole && !Occupied(session.run) && OldSendable(session.run)
    requires Managed(session.run.desired, bundle) && Decided(session, bundle, fault)
    requires fault.None? ==> Succeeds(session, options, result)
    ensures NextReaches(session, bundle, fault)
  {
  }

  /** What a run of a sole writer leaves to the next one. */
  ghost predicate Resumable(run: Run, left: Content) {
    && Plan(run) && Known(run) && Keyed(left.bindings)
    && (left == run.baseline || run.desired in left.bindings)
    && (!Occupied(run) ==> left in {run.baseline, run.added, run.goal})
  }

  lemma LeavesResumable(session: Session)
    requires session.Valid() && session.sole
    ensures Sane(session.device.world) && session.run.name in session.device.world.running.clients
    ensures Resumable(session.run, session.Actual())
  {
    var run, world, p, v := session.run, session.device.world, session.watch.progress, session.watch.view;
    SaneAfter(run, world, p, v);
    LeftBaselineOrDesired(run, world, p, v);
    StartFacts(run, world, p, v);
    PlanKept(run, world, p, v);
    if !Occupied(run) {
      StatesLeft(run, world, p, v);
    }
  }

  /** What the next call does once it has started, given the run and the state that
      it left. With a free name it has the goal of the first run, but for a call that
      names no certificate and finds both entries bound; and it reaches its goal
      without a failing call. If it names none and the desired entry is bound it
      sends only reads: an old entry beside it stays, and a goal that was not saved is
      not saved. */
  ghost predicate Resumed(run: Run, left: Content, session: Session, named: string, bundle: Bundle,
      fault: Option<Fault>)
    requires Managed(session.run.desired, bundle)
    reads session, session.device
  {
    && session.Valid() && session.sole && session.run.baseline == left && session.run.desired == run.desired
    && (named != "" ==> Holds(left.bindings, named))
    && (!Occupied(run) ==>
          && session.run.goal == NextGoal(run, left, named)
          && (OldSendable(run) ==> NextReaches(session, bundle, fault)))
    && (named == "" && run.desired in left.bindings ==> session.run.goal == left && NothingDone(session))
  }

  /** Only reads were sent, and nothing has changed. */
  ghost predicate NothingDone(session: Session)
    reads session, session.device
  {
    && session.device.world == session.run.start
    && forall i :: 0 <= i < |session.log| ==> IsRead(session.log[i].event)
  }

  lemma RepeatDoesNothing(session: Session)
    requires session.Valid() && session.sole && session.run.desired in session.run.baseline.bindings
    requires EntrySendable(session.run.desired)
    requires SelectedRightly(session.run.baseline, session.run.desired, session.run.current, "")
    ensures session.run.goal == session.run.baseline && NothingDone(session)
  {
    RepeatHasNothingToDo(session.run, session.device.world, session.watch.progress, session.watch.view);
    Traces.NothingRequested(session.run, session.log, session.watch);
  }

  lemma NextRun(run: Run, left: Content, session: Session, options: Options, bundle: Bundle, named: string,
      result: SyncResult, fault: Option<Fault>)
    requires Resumable(run, left) && SelectedRightly(run.baseline, run.desired, run.current, named)
    requires session.Valid() && session.sole && session.run.baseline == left && session.run.desired == run.desired
    requires SelectedRightly(left, run.desired, session.run.current, named) && session.run.cleanup == run.cleanup
    requires EntrySendable(run.desired) && Managed(session.run.desired, bundle) && Decided(session, bundle, fault)
    requires fault.None? ==> Succeeds(session, options, result)
    ensures Resumed(run, left, session, named, bundle, fault)
  {
    if !Occupied(run) {
      assert Plan(session.run);
      NextPlan(run, session.run, left, named);
      if OldSendable(run) {
        GoalReached(session, options, bundle, result, fault);
      }
    }
    if named == "" && run.desired in left.bindings {
      RepeatDoesNothing(session);
    }
  }

  /** The same of the call that performed the run. */
  lemma NextStarted(run: Run, left: Content, session: Session, target: Target, options: Options, bundle: Bundle,
      result: SyncResult, fault: Option<Fault>)
    requires Resumable(run, left) && run.cleanup == options.cleanupOld
    requires SelectedRightly(run.baseline, run.desired, run.current, target.currentCertificate)
    requires session.Valid() && session.sole && session.run.desired == run.desired && EntrySendable(run.desired)
    requires session.run.name in session.run.start.running.clients
      && left == SlotContent(session.run.name, session.run.start.running.clients[session.run.name])
    requires Performs(session.run, target, bundle, options, result)
    requires Managed(session.run.desired, bundle) && Decided(session, bundle, fault)
    requires fault.None? ==> Succeeds(session, options, result)
    ensures Resumed(run, left, session, target.currentCertificate, bundle, fault)
  {
    BaselineIsStart(session.run, session.device.world, session.watch.progress, session.watch.view);
    NextRun(run, left, session, options, bundle, target.currentCertificate, result, fault);
  }

  /** Why the next call does not start. */
  ghost predicate Refused(left: Content, named: string, fault: Option<Fault>) {
    && fault in {Some(Invalid), Some(Unsupported), Some(CallFailed), Some(Fault.Unselectable)}
    && (fault == Some(Fault.Unselectable) ==> named != "" && !Holds(left.bindings, named))
  }

  lemma NextClosed(run: Run, left: Content, target: Target, options: Options, bundle: Bundle,
      seen: Option<ClientTemplate>, fault: Option<Fault>)
    requires Resumable(run, left) && options.expectedRevision.None?
    requires SelectedRightly(run.baseline, run.desired, run.current, target.currentCertificate)
    requires var names := NamesForTarget(bundle.checksum, bundle.chain != [], options.namePrefix, target.template);
             names.Some? && run.desired == DesiredBinding(names.value, options.shared).Logical()
    requires fault.Some? && ClosedRightly(fault.value, target, bundle, options, seen)
    requires seen.Some? ==> ContentOf(seen.value) == left
    ensures Refused(left, target.currentCertificate, fault)
  {
    var names := NamesForTarget(bundle.checksum, bundle.chain != [], options.namePrefix, target.template).value;
    if fault.value.Unselectable? {
      Unselected(run, seen.value, target.currentCertificate, DesiredBinding(names, options.shared));
    }
  }

  /** The next call with the same arguments, after a sole writer's run that ended in
      whatever way. Naming the old certificate after it has gone is refused. */
  method Retry(session: Session, target: Target, bundle: Bundle, options: Options)
    returns (result: SyncResult, fault: Option<Fault>, ghost started: bool)
    requires session.Valid() && session.sole && session.run.name == target.template
    requires SelectedRightly(session.run.baseline, session.run.desired, session.run.current, target.currentCertificate)
    requires session.run.cleanup == options.cleanupOld
    requires WellFormedDigest(bundle.checksum) && options.expectedRevision.None?
    requires var names := NamesForTarget(bundle.checksum, bundle.chain != [], options.namePrefix, target.template);
             names.Some? && session.run.desired == DesiredBinding(names.value, options.shared).Logical()
    modifies session, session.device
    ensures !started ==> session.device.world == old(session.device.world)
    ensures !started ==> Refused(old(session.Actual()), target.currentCertificate, fault)
    ensures started ==>
      && session.run.start == old(session.device.world) && Managed(session.run.desired, bundle)
      && Resumed(old(session.run), old(session.Actual()), session, target.currentCertificate, bundle, fault)
  {
    ghost var run, left := session.run, session.Actual();
    LeavesResumable(session);
    DesiredManaged(target, bundle, options);
    ghost var seen;
    result, fault, started, seen := SyncCertificate(session, target, bundle, options);
    if started {
      NextStarted(run, left, session, target, options, bundle, result, fault);
    } else {
      NextClosed(run, left, target, options, bundle, seen, fault);
    }
  }
}
