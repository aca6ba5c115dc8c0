/** One certificate synchronization from the first read to the last save. */
module Sync {
  import opened Wrappers
  import opened Templates
  import opened Revision
  import opened Contents
  import opened Appliance
  import opened Monitor
  import opened Safety
  import opened Names
  import opened Sessions
  import opened Rollback
  import opened Restore
  import opened Targets
  import opened Checks
  import opened Uploads
  import opened Rotation
  import opened Cleanup
  import opened Persisting

  datatype Stage =
    | Started | CompatibilityVerified | StateInspected | MaterialStaged | DesiredBound | OldBindingRemoved
    | CleanupComplete | PersistedStage | RolledBackStage | Complete

  datatype SyncResult = SyncResult(
    stage: Stage, changed: bool, uploaded: bool, bound: bool, unboundOld: bool, deletedOld: seq<string>,
    wroteMemory: bool, rolledBack: bool, previous: Option<Binding>,
    initialRevision: Option<TemplateRevision>, finalRevision: Option<TemplateRevision>)

  // ---- the binding change ----

  predicate Replacing(current: Option<Binding>, desired: Binding) {
    current.Some? && current.value.certificate != desired.certificate
  }

  lemma WithoutReplacement(run: Run)
    requires Planned(run) && !Replaces(run.current, run.desired)
    ensures run.goal == run.added
  {
    assert Plan(run);
  }

  /** Clears the old entry if there is one to replace. */
  method ClearOld(session: Session, template: string, baseline: ClientTemplate, placed: ClientTemplate,
      implicitly: bool, desired: Binding, current: Option<Binding>)
    returns (r: Removal)
    requires template == session.run.name && AfterBind(session, placed, implicitly)
    requires Situation(session.run, baseline, desired, current)
    modifies session`log, session`watch, session.device
    ensures session.Valid() && session.watch.progress == old(session.watch.progress)
    ensures session.watch.failures >= old(session.watch.failures)
    ensures r.Cleared? ==> Settled(session, r.expected)
    ensures r.Blocked? ==> RemovalFault(session, r.fault)
    ensures session.sole && session.watch.failures == old(session.watch.failures) ==>
      r.Cleared? || Unremoved(session, r.fault)
    ensures session.sole && !Removable(session.run) ==> (r.Cleared? <==> session.Actual() == session.run.goal)
  {
    if Replacing(current, desired) {
      EntriesMember(baseline.certificates, current.value.Logical());
      r := RemoveCurrent(session, template, placed, current.value, implicitly);
    } else {
      WithoutReplacement(session.run);
      r := Cleared(placed);
    }
  }

  /** How far the binding change got. */
  datatype Course = Course(accepted: bool, mutated: bool, placed: bool, cleared: bool)

  /** A failure of the binding change, before or after the desired entry was seen. */
  ghost predicate RotationFault(session: Session, fault: Fault, course: Course)
    reads session
  {
    if course.placed then RemovalFault(session, fault)
    else BindingFault(session, fault, course.accepted, course.mutated)
  }

  /** What the binding change led to. */
  ghost predicate RotationMeans(session: Session, r: Removal, course: Course, hadDesired: bool)
    reads session, session.device
  {
    && (course.accepted ==> course.mutated) && (course.mutated ==> !hadDesired)
    && (course.placed ==> course.mutated == !hadDesired)
    && (r.Cleared? <==> course.cleared) && (course.cleared ==> course.placed)
    && (if r.Cleared? then Settled(session, r.expected) else RotationFault(session, r.fault, course))
    && (session.sole && !course.mutated && !course.placed ==>
          session.Actual() == session.run.baseline && session.watch.failures > 0)
    && (session.sole && session.watch.failures == 0 ==>
          if Occupied(session.run) then r.Blocked? && course.mutated && Clash(session, r.fault)
          else r.Cleared? || Unremoved(session, r.fault))
    && (session.sole && course.placed && !Removable(session.run) ==>
          (r.Cleared? <==> session.Actual() == session.run.goal))
  }

  /** Binds the desired entry and clears the old one. With a sole writer and no
      failing call, an occupied name ends in a conflict, and any other run in the
      goal, unless the old name cannot be sent and the appliance did not replace the
      entry by itself. */
  method Rotate(session: Session, template: string, baseline: ClientTemplate, baselineRevision: TemplateRevision,
      desired: Binding, current: Option<Binding>)
    returns (r: Removal, course: Course)
    requires template == session.run.name && Prepared(session, baseline, desired, current)
    requires baselineRevision == RevisionOf(session.run.baseline)
    modifies session`log, session`watch, session.device
    ensures session.Valid() && OnlyBound(old(session.watch.progress), session.watch.progress, course.mutated)
    ensures session.watch.failures >= old(session.watch.failures)
    ensures RotationMeans(session, r, course, HasBinding(baseline.certificates, desired))
  {
    var placement, accepted, mutated := BindDesired(session, template, baseline, baselineRevision, desired, current);
    if placement.Unplaced? {
      return Blocked(placement.fault), Course(accepted, mutated, false, false);
    }
    r := ClearOld(session, template, baseline, placement.expected, placement.implicitly, desired, current);
    course := Course(accepted, mutated, true, r.Cleared?);
  }

  /** The report of the binding change: an accepted or observed bind counts as
      bound, and a cleared old entry as unbound. */
  function RotationReport(before: SyncResult, course: Course, replacing: bool): SyncResult {
    var bound := course.accepted || (course.mutated && course.placed);
    var unbound := course.cleared && replacing;
    before.(
      bound := before.bound || bound, unboundOld := before.unboundOld || unbound,
      changed := before.changed || bound || unbound,
      stage := if unbound then OldBindingRemoved
               else if course.mutated && course.placed then DesiredBound else before.stage)
  }

  // ---- saving and cleanup ----

  /** What the last part of a run needs to know. */
  ghost predicate Finishing(session: Session, options: Options, baseline: ClientTemplate, expected: ClientTemplate,
      desired: Binding, named: string, uploaded: Material)
    reads session, session.device
  {
    && Settled(session, expected) && Given(session.run, baseline, desired, named)
    && session.watch.progress == SentOnly(uploaded).(bound := session.watch.progress.bound) && uploaded.Sendable()
    && (session.watch.progress.bound || session.run.desired in session.run.baseline.bindings)
    && session.run.noWrite == options.noWriteMemory && session.run.cleanup == options.cleanupOld
  }

  /** The last call of the run so far was an accepted save. */
  ghost predicate JustSaved(session: Session)
    reads session
  {
    session.log != [] && session.log[|session.log| - 1].event == Saved(true)
  }

  /** Saves a configuration that cleanup has changed. */
  method SaveCleanup(session: Session, deleted: seq<string>) returns (saved: bool)
    requires CleanupTime(session) && CleanedUp(session, deleted) && deleted != [] && !session.run.noWrite
    modifies session`log, session`watch, session.device
    ensures session.Valid() && CleanedUp(session, deleted)
    ensures session.watch.progress == old(session.watch.progress)
    ensures session.watch.view == old(session.watch.view).(read := None)
    ensures session.watch.failures == old(session.watch.failures) + if saved then 0 else 1
    ensures session.sole ==> session.device.world.running == old(session.device.world.running)
    ensures saved ==> JustSaved(session)
  {
    saved := session.WriteMemory();
  }

  /** Cleanup of the replaced files, saved if anything was deleted. */
  method CleanUp(session: Session, options: Options, previous: Entry, desired: Entry)
    returns (deleted: Option<seq<string>>, complete: bool)
    requires CleanupTime(session) && session.run.current == Some(previous) && session.run.desired == desired
    requires session.run.noWrite == options.noWriteMemory && !session.watch.progress.cleaned
    modifies session`log, session`watch, session.device
    ensures session.Valid() && session.watch.failures >= old(session.watch.failures)
    ensures OnlyDeleted(old(session.watch.progress), session.watch.progress)
    ensures session.watch.view.settled == old(session.watch.view.settled)
    ensures session.sole ==> session.device.world.running == old(session.device.world.running)
    ensures complete ==> deleted.Some? && (deleted.value != [] && !options.noWriteMemory ==> JustSaved(session))
    ensures deleted.Some? ==> CleanedUp(session, deleted.value)
    ensures session.watch.failures == old(session.watch.failures) ==> DoomedDecide(session, complete)
  {
    complete := false;
    deleted := DeleteUnreferenced(session, previous, desired);
    if deleted.Some? {
      complete := true;
      if |deleted.value| != 0 && !options.noWriteMemory {
        complete := SaveCleanup(session, deleted.value);
      }
    }
  }

  /** How a run ends once the goal is reached. */
  datatype Ending =
    | Ended(wrote: bool, deleted: seq<string>)
    | CleanupFailed(wrote: bool, done: Option<seq<string>>)
    | SaveUnverified(fault: Fault)
    | SaveUndone
    | SaveStuck(undo: UndoFault)

  /** The goal was read after the last binding change, and stands, saved or not. */
  ghost predicate GoalHeld(session: Session, wrote: bool)
    reads session, session.device
  {
    && session.watch.view.settled == Some(session.run.goal)
    && session.watch.progress.save == (if wrote then Persisted else Untried)
    && (session.sole ==> session.Actual() == session.run.goal)
    && (session.sole && wrote ==> session.device.world.saved == session.device.world.running)
  }

  /** What each ending says, given what had been sent before. */
  ghost predicate EndingMeans(session: Session, ending: Ending, saving: bool, cleaning: bool, uploaded: Material,
      before: Progress)
    reads session, session.device
  {
    SameMaterial(before, session.watch.progress) &&
    match ending
    case Ended(wrote, deleted) =>
      && wrote == saving && GoalHeld(session, wrote)
      && (wrote && deleted != [] ==> JustSaved(session))
      && (if cleaning then CleanedUp(session, deleted)
          else deleted == [] && session.watch.progress == before.(save := session.watch.progress.save))
    case CleanupFailed(wrote, _) =>
      cleaning && wrote == saving && GoalHeld(session, wrote) && CallLost(session.run, session.watch)
    case SaveUnverified(fault) => PersistenceMeans(session, Unverified(fault), before, uploaded)
    case SaveUndone => PersistenceMeans(session, Undone, before, uploaded)
    case SaveStuck(undo) => PersistenceMeans(session, Stuck(undo), before, uploaded)
  }

  /** Without a failing call, a sole writer's save is accepted. */
  ghost predicate EndingDecided(session: Session, ending: Ending)
    reads session
  {
    session.sole && session.watch.failures == 0 ==>
      (ending.Ended? || ending.CleanupFailed?) && CleanupDecided(session, ending.Ended?)
  }

  /** Saves a changed configuration unless saving is switched off. */
  method SaveChanges(session: Session, template: string, options: Options, changed: bool, baseline: ClientTemplate,
      expected: ClientTemplate, desired: Binding, named: string, uploaded: Material)
    returns (outcome: Persistence, wrote: bool)
    requires template == session.run.name && Finishing(session, options, baseline, expected, desired, named, uploaded)
    requires changed ==> Altered(session.run, session.watch.progress)
    modifies session`log, session`watch, session.device
    ensures session.Valid() && session.watch.failures >= old(session.watch.failures)
    ensures PersistenceMeans(session, outcome, old(session.watch.progress), uploaded)
    ensures outcome.Undone? || outcome.Stuck? ==> session.watch.failures > old(session.watch.failures)
    ensures wrote <==> outcome.Written? && changed && !options.noWriteMemory
    ensures outcome.Written? ==> session.watch.progress.save == if wrote then Persisted else Untried
    ensures session.sole && outcome.Written? ==>
      session.device.world == old(session.device.world).(saved := session.device.world.saved)
    ensures session.sole && wrote ==> session.device.world.saved == session.device.world.running
    ensures session.sole && session.watch.failures == old(session.watch.failures) ==> outcome.Written?
  {
    outcome, wrote := Written, false;
    if changed && !options.noWriteMemory {
      outcome := Persist(session, template, baseline, expected, desired, named, uploaded);
      wrote := outcome.Written?;
    }
  }

  /** Without a failing call, a cleanup that is due completes as the lists decide. */
  ghost predicate CleanupDecided(session: Session, complete: bool)
    reads session
  {
    session.watch.failures == 0 ==>
      if Replaces(session.run.current, session.run.desired) && session.run.cleanup then DoomedDecide(session, complete)
      else complete
  }

  lemma DoomedIsOld(session: Session, complete: bool)
    requires DoomedDecide(session, complete) && OldSendable(session.run)
    requires Replaces(session.run.current, session.run.desired) && session.run.cleanup
    ensures complete
  {
  }

  method Tidy(session: Session, options: Options, desired: Binding, current: Option<Binding>, wrote: bool)
    returns (ending: Ending)
    requires session.Valid() && !session.watch.diverged && GoalHeld(session, wrote)
      && !session.watch.progress.cleaned
    requires Plain(current) == session.run.current && desired.Logical() == session.run.desired
    requires session.run.noWrite == options.noWriteMemory && session.run.cleanup == options.cleanupOld
    requires session.watch.progress.bound || session.run.desired in session.run.baseline.bindings
    requires (Replacing(current, desired) ==> wrote || options.noWriteMemory) && (wrote ==> !options.noWriteMemory)
    modifies session`log, session`watch, session.device
    ensures session.Valid() && session.watch.failures >= old(session.watch.failures)
    ensures ending.Ended? || ending.CleanupFailed?
    ensures EndingMeans(session, ending, wrote, Replacing(current, desired) && options.cleanupOld, NO_MATERIAL,
                        old(session.watch.progress))
    ensures CleanupDecided(session, ending.Ended?)
  {
    ending := Ended(wrote, []);
    if Replacing(current, desired) && options.cleanupOld {
      var deleted, complete := CleanUp(session, options, current.value.Logical(), desired.Logical());
      ending := if complete then Ended(wrote, deleted.value) else CleanupFailed(wrote, deleted);
    }
    if session.sole && wrote {
      SavedIsRunning(session.run, session.device.world, session.watch.progress, session.watch.view);
    }
  }

  /** Saves, then cleans up if that was asked for and an entry was replaced. */
  method Conclude(session: Session, template: string, options: Options, changed: bool, baseline: ClientTemplate,
      expected: ClientTemplate, desired: Binding, current: Option<Binding>, named: string, uploaded: Material)
    returns (ending: Ending)
    requires template == session.run.name && Finishing(session, options, baseline, expected, desired, named, uploaded)
    requires changed ==> Altered(session.run, session.watch.progress)
    requires Plain(current) == session.run.current && (Replacing(current, desired) ==> changed)
    modifies session`log, session`watch, session.device
    ensures session.Valid() && session.watch.failures >= old(session.watch.failures)
    ensures EndingMeans(session, ending, changed && !options.noWriteMemory,
                        Replacing(current, desired) && options.cleanupOld, uploaded, old(session.watch.progress))
    ensures EndingDecided(session, ending)
  {
    var outcome, wrote := SaveChanges(session, template, options, changed, baseline, expected, desired, named,
                                      uploaded);
    match outcome {
      case Unverified(fault) => return SaveUnverified(fault);
      case Undone => return SaveUndone;
      case Stuck(undo) => return SaveStuck(undo);
      case Written =>
    }
    ending := Tidy(session, options, desired, current, wrote);
  }

  // ---- one attempt ----

  datatype Attempt =
    | StagingFailed(fault: Fault, uploaded: Material)
    | RotationFailed(fault: Fault, uploaded: Material, course: Course)
    | Concluded(ending: Ending, uploaded: Material, course: Course, reached: TemplateRevision)
  {
    /** A bind request was prepared and sent. */
    predicate Mutated() {
      !StagingFailed? && course.mutated
    }

    function Result(): Option<Fault> {
      match this
      case StagingFailed(fault, _) => Some(fault)
      case RotationFailed(fault, _, _) => Some(fault)
      case Concluded(ending, _, _, _) => EndingFault(ending)
    }
  }

  function EndingFault(ending: Ending): Option<Fault> {
    match ending
    case Ended(_, _) => None
    case CleanupFailed(_, _) => Some(CallFailed)
    case SaveUnverified(fault) => Some(fault)
    case SaveUndone => Some(SaveFault)
    case SaveStuck(undo) => Some(RollbackFailed(SaveFault, undo))
  }

  /** The start of an attempt: the baseline was just read and nothing was sent. */
  ghost predicate Fresh(session: Session, options: Options, bundle: Bundle, baseline: ClientTemplate, desired: Binding,
      current: Option<Binding>, named: string)
    reads session, session.device
  {
    && Forward(session) && session.watch.progress == NOTHING_SENT
    && !session.watch.unbound && session.watch.view.settled.None?
    && Situation(session.run, baseline, desired, current) && Given(session.run, baseline, desired, named)
    && Managed(desired.Logical(), bundle)
    && session.run.noWrite == options.noWriteMemory && session.run.cleanup == options.cleanupOld
    && (session.sole ==> session.Actual() == session.run.baseline && session.device.world == session.run.start)
  }

  /** Something was uploaded, bound or unbound. */
  predicate Changes(uploaded: Material, course: Course, replacing: bool) {
    !uploaded.Empty() || course.accepted || (course.mutated && course.placed) || (course.cleared && replacing)
  }

  ghost predicate AttemptMeans(session: Session, attempt: Attempt, options: Options, desired: Binding,
      current: Option<Binding>, hadDesired: bool)
    reads session, session.device
  {
    attempt.uploaded.Sendable() &&
    match attempt
    case StagingFailed(fault, uploaded) =>
      && (fault == Collides || (fault == CallFailed && session.watch.failures > 0))
      && session.watch.progress == SentOnly(uploaded)
      && (session.sole ==> session.Actual() == session.run.baseline)
    case RotationFailed(fault, uploaded, course) =>
      && session.watch.progress == SentOnly(uploaded).(bound := course.mutated) && !course.cleared
      && (course.accepted ==> course.mutated)
      && (course.placed ==> course.mutated == !hadDesired)
      && RotationFault(session, fault, course)
      && (session.sole && !course.mutated && !course.placed ==>
            session.Actual() == session.run.baseline && session.watch.failures > 0)
    case Concluded(ending, uploaded, course, reached) =>
      && course.cleared && course.placed && (course.accepted ==> course.mutated) && course.mutated == !hadDesired
      && reached == RevisionOf(session.run.goal)
      && EndingMeans(session, ending, Changes(uploaded, course, Replacing(current, desired)) && !options.noWriteMemory,
                     Replacing(current, desired) && options.cleanupOld, uploaded,
                     SentOnly(uploaded).(bound := course.mutated))
  }

  /** Without a failing call, a sole writer's binding change ends as the start
      decides. */
  ghost predicate RotationDecided(session: Session, attempt: Attempt)
    reads session, session.device
  {
    session.sole && session.watch.failures == 0 ==>
      if Occupied(session.run) then
        attempt.RotationFailed? && attempt.course.mutated && Clash(session, attempt.fault)
      else if attempt.RotationFailed? then
        Unremoved(session, attempt.fault)
      else
        attempt.Concluded? && session.Actual() == session.run.goal && CleanupDecided(session, attempt.Result().None?)
  }

  /** And so does the whole attempt. */
  ghost predicate AttemptDecided(session: Session, attempt: Attempt, bundle: Bundle)
    requires Managed(session.run.desired, bundle)
    reads session, session.device
  {
    session.sole ==>
      if MetadataFits(session.run.start, session.run.desired, bundle) then
        attempt.Result() != Some(Collides) && RotationDecided(session, attempt)
      else
        attempt.StagingFailed? && (session.watch.failures == 0 ==> attempt.fault == Collides)
  }

  lemma RotationStopped(session: Session, options: Options, fault: Fault, uploaded: Material, course: Course,
      desired: Binding, current: Option<Binding>, hadDesired: bool)
    requires RotationMeans(session, Blocked(fault), course, hadDesired) && uploaded.Sendable()
    requires session.watch.progress == SentOnly(uploaded).(bound := course.mutated)
    ensures fault != Collides && RotationDecided(session, RotationFailed(fault, uploaded, course))
    ensures AttemptMeans(session, RotationFailed(fault, uploaded, course), options, desired, current, hadDesired)
  {
  }

  lemma MaterialUploaded(uploaded: Material)
    ensures uploaded.Empty() <==> uploaded.Certificates() + uploaded.Keys() == {}
  {
    if !uploaded.Empty() {
      assert uploaded.key in uploaded.Keys() || uploaded.certificate in uploaded.Certificates()
        || uploaded.chain in uploaded.Certificates();
    }
  }

  lemma BoundOrAlready(run: Run, baseline: ClientTemplate, desired: Binding)
    requires ContentOf(baseline) == run.baseline && desired.Logical() == run.desired
    ensures HasBinding(baseline.certificates, desired) <==> run.desired in run.baseline.bindings
  {
    HasBindingMember(baseline.certificates, desired);
  }

  /** The goal is settled; a bind was sent exactly if the entry was not bound. */
  predicate Completed(course: Course, hadDesired: bool) {
    course.cleared && course.placed && (course.accepted ==> course.mutated) && course.mutated == !hadDesired
  }

  /** What the rest of an attempt relies on; a change in the report is one of the run. */
  ghost predicate Concludable(session: Session, options: Options, baseline: ClientTemplate, expected: ClientTemplate,
      desired: Binding, current: Option<Binding>, named: string, uploaded: Material, course: Course)
    reads session, session.device
  {
    && Finishing(session, options, baseline, expected, desired, named, uploaded)
    && Plain(current) == session.run.current && session.watch.progress.bound == course.mutated
    && Completed(course, HasBinding(baseline.certificates, desired))
    && (Changes(uploaded, course, Replacing(current, desired)) ==> Altered(session.run, session.watch.progress))
    && (Replacing(current, desired) ==> Changes(uploaded, course, true))
    && (session.sole && session.watch.failures == 0 ==> !Occupied(session.run))
  }

  /** After the binding change the run can be concluded. */
  lemma Rotated(session: Session, options: Options, baseline: ClientTemplate, expected: ClientTemplate,
      desired: Binding, current: Option<Binding>, named: string, uploaded: Material, course: Course)
    requires RotationMeans(session, Cleared(expected), course, HasBinding(baseline.certificates, desired))
    requires Given(session.run, baseline, desired, named)
    requires Situation(session.run, baseline, desired, current) && uploaded.Sendable()
    requires session.watch.progress == SentOnly(uploaded).(bound := course.mutated)
    requires session.run.noWrite == options.noWriteMemory && session.run.cleanup == options.cleanupOld
    ensures Concludable(session, options, baseline, expected, desired, current, named, uploaded, course)
  {
    BoundOrAlready(session.run, baseline, desired);
    MaterialUploaded(uploaded);
  }

  lemma RotationConcluded(session: Session, options: Options, attempt: Attempt, desired: Binding,
      current: Option<Binding>, hadDesired: bool)
    requires attempt.Concluded? && attempt.uploaded.Sendable() && Completed(attempt.course, hadDesired)
    requires attempt.reached == RevisionOf(session.run.goal)
    requires EndingMeans(session, attempt.ending,
      Changes(attempt.uploaded, attempt.course, Replacing(current, desired)) && !options.noWriteMemory,
      Replacing(current, desired) && options.cleanupOld, attempt.uploaded,
      SentOnly(attempt.uploaded).(bound := attempt.course.mutated))
    requires EndingDecided(session, attempt.ending)
    requires session.sole && session.watch.failures == 0 ==> !Occupied(session.run)
    ensures AttemptMeans(session, attempt, options, desired, current, hadDesired)
    ensures attempt.Result() != Some(Collides) && RotationDecided(session, attempt)
  {
  }

  /** Everything after the binding change. */
  method ConcludeAttempt(session: Session, template: string, options: Options, baseline: ClientTemplate,
      expected: ClientTemplate, desired: Binding, current: Option<Binding>, named: string, uploaded: Material,
      course: Course)
    returns (attempt: Attempt)
    requires template == session.run.name
    requires Concludable(session, options, baseline, expected, desired, current, named, uploaded, course)
    modifies session`log, session`watch, session.device
    ensures session.Valid() && session.watch.failures >= old(session.watch.failures)
    ensures attempt.Concluded? && attempt.Result() != Some(Collides)
    ensures AttemptMeans(session, attempt, options, desired, current, HasBinding(baseline.certificates, desired))
    ensures RotationDecided(session, attempt)
  {
    var changed := Changes(uploaded, course, Replacing(current, desired));
    var reached := ComputeRevision(expected);
    var ending := Conclude(session, template, options, changed, baseline, expected, desired, current, named, uploaded);
    attempt := Concluded(ending, uploaded, course, reached);
    RotationConcluded(session, options, attempt, desired, current, HasBinding(baseline.certificates, desired));
  }

  /** The binding change and everything after it. */
  method Proceed(session: Session, template: string, options: Options, baseline: ClientTemplate,
      baselineRevision: TemplateRevision, desired: Binding, current: Option<Binding>, named: string, uploaded: Material)
    returns (attempt: Attempt)
    requires template == session.run.name && Prepared(session, baseline, desired, current)
      && Given(session.run, baseline, desired, named)
    requires session.watch.progress == SentOnly(uploaded) && uploaded.Sendable()
    requires session.run.noWrite == options.noWriteMemory && session.run.cleanup == options.cleanupOld
    requires baselineRevision == RevisionOf(session.run.baseline)
    modifies session`log, session`watch, session.device
    ensures session.Valid() && session.watch.failures >= old(session.watch.failures)
    ensures !attempt.StagingFailed? && attempt.Result() != Some(Collides)
    ensures AttemptMeans(session, attempt, options, desired, current, HasBinding(baseline.certificates, desired))
    ensures RotationDecided(session, attempt)
  {
    var removal, course := Rotate(session, template, baseline, baselineRevision, desired, current);
    if removal.Blocked? {
      RotationStopped(session, options, removal.fault, uploaded, course, desired, current,
                      HasBinding(baseline.certificates, desired));
      return RotationFailed(removal.fault, uploaded, course);
    }
    Rotated(session, options, baseline, removal.expected, desired, current, named, uploaded, course);
    attempt := ConcludeAttempt(session, template, options, baseline, removal.expected, desired, current, named,
                               uploaded, course);
  }

  method Try(session: Session, template: string, options: Options, bundle: Bundle, baseline: ClientTemplate,
      baselineRevision: TemplateRevision, desired: Binding, current: Option<Binding>, named: string)
    returns (attempt: Attempt)
    requires template == session.run.name && Fresh(session, options, bundle, baseline, desired, current, named)
    requires baselineRevision == RevisionOf(session.run.baseline)
    modifies session`log, session`watch, session.device
    ensures session.Valid() && session.watch.failures >= old(session.watch.failures)
    ensures AttemptMeans(session, attempt, options, desired, current, HasBinding(baseline.certificates, desired))
    ensures AttemptDecided(session, attempt, bundle)
  {
    var fault, uploaded := StageMaterial(session, desired.Logical(), bundle);
    if fault.Some? {
      return StagingFailed(fault.value, uploaded);
    }
    attempt := Proceed(session, template, options, baseline, baselineRevision, desired, current, named, uploaded);
  }

  // ---- the report ----

  function StagingReport(before: SyncResult, uploaded: Material): SyncResult {
    before.(uploaded := !uploaded.Empty(), changed := !uploaded.Empty())
  }

  function EndingReport(before: SyncResult, ending: Ending): SyncResult {
    match ending
    case Ended(wrote, deleted) => before.(wroteMemory := wrote, deletedOld := deleted, stage := Complete)
    case CleanupFailed(wrote, done) =>
      before.(wroteMemory := wrote, deletedOld := if done.Some? then done.value else [],
              stage := if done.Some? then CleanupComplete else if wrote then PersistedStage else before.stage)
    case SaveUnverified(_) => before
    case SaveUndone => before.(rolledBack := true, stage := RolledBackStage)
    case SaveStuck(_) => before
  }

  /** What was read and selected stays in the report. */
  predicate SameHeader(before: SyncResult, after: SyncResult) {
    after.previous == before.previous && after.initialRevision == before.initialRevision
  }

  /** The report of an attempt, on top of what was reported before. */
  function AttemptReport(before: SyncResult, attempt: Attempt, replacing: bool): (report: SyncResult)
    ensures SameHeader(before, report)
  {
    var staged := StagingReport(before, attempt.uploaded).(stage := MaterialStaged);
    match attempt
    case StagingFailed(_, uploaded) => StagingReport(before, uploaded)
    case RotationFailed(_, _, course) => RotationReport(staged, course, replacing)
    case Concluded(ending, _, course, reached) =>
      EndingReport(RotationReport(staged, course, replacing).(finalRevision := Some(reached)), ending)
  }

  // ---- the compensation of a partial upload ----

  /** Uploads happen only when the desired entry was not bound. */
  lemma UploadsMeanUnbound(run: Run, world: World, p: Progress, v: View, uploaded: Material)
    requires Kept(run, world, p, v) && Recorded(p, uploaded) && !uploaded.Empty()
    ensures run.desired !in run.baseline.bindings
  {
    assert Sole(run, world, p, v);
    assert uploaded.key in uploaded.Keys() || uploaded.certificate in uploaded.Certificates()
      || uploaded.chain in uploaded.Certificates();
    if run.desired in run.baseline.bindings {
      NoUploadIfBound(run, world, p);
    }
  }

  /** With the uploads gone and no cleanup done, the stores are as they were. */
  lemma StoresRestored(run: Run, world: World, p: Progress, v: View, uploaded: Material)
    requires Kept(run, world, p, v) && Recorded(p, uploaded) && !p.cleaned
    requires world.certificates !! uploaded.Certificates() && world.keys !! uploaded.Keys()
    ensures run.exact ==> world.certificates == run.start.certificates && world.keys == run.start.keys
  {
    assert Sole(run, world, p, v);
  }

  /** The template and the stores are as at the start. */
  ghost predicate AsBefore(session: Session)
    reads session, session.device
  {
    && session.Actual() == session.run.baseline
    && (session.run.exact ==>
          && session.device.world.certificates == session.run.start.certificates
          && session.device.world.keys == session.run.start.keys)
  }

  /** Deletes partial uploads after a failure that sent no bind. */
  method Compensate(session: Session, uploaded: Material, fault: Fault) returns (compensated: Fault, undone: bool)
    requires session.Valid() && Recorded(session.watch.progress, uploaded) && uploaded.Sendable()
    requires !session.watch.progress.bound
    modifies session`log, session`watch, session.device
    ensures session.Valid() && OnlyUndone(session, old(session.watch), old(session.device.world))
    ensures if undone then compensated == fault else compensated.RollbackFailed? && compensated.cause == fault
    ensures undone ==> Gone(session.watch.view, uploaded)
    ensures session.sole && session.watch.failures == old(session.watch.failures) ==> undone
    ensures session.sole && undone && !old(session.watch.progress.cleaned) ==>
      old(session.Actual()) == session.run.baseline ==> AsBefore(session)
  {
    var undo := RollbackUploadedMaterial(session, uploaded);
    undone := undo.None?;
    compensated := if undo.Some? then RollbackFailed(fault, undo.value) else fault;
    if session.sole && undone && !session.watch.progress.cleaned {
      StoresRestored(session.run, session.device.world, session.watch.progress, session.watch.view, uploaded);
    }
  }

  // ---- a synchronization after the selection ----

  /** The report of a completed run says exactly what was done: files uploaded,
      the entry bound unless it was, the old entry removed if it was another. */
  ghost predicate ReportsExactly(session: Session, result: SyncResult)
    reads session
  {
    && result.changed == (result.uploaded || result.bound || result.unboundOld)
    && (result.uploaded <==> session.watch.progress.mineCertificates + session.watch.progress.mineKeys != {})
    && (result.bound <==> session.watch.progress.bound)
    && (result.bound <==> session.run.desired !in session.run.baseline.bindings)
    && (result.unboundOld <==> Replaces(session.run.current, session.run.desired))
  }

  /** Without a fault the goal is reached, reported and, if anything changed and
      saving is not switched off, saved. */
  ghost predicate Succeeds(session: Session, options: Options, result: SyncResult)
    reads session, session.device
  {
    && ReportsExactly(session, result)
    && result.stage == Complete && !result.rolledBack
    && result.finalRevision == Some(RevisionOf(session.run.goal))
    && result.wroteMemory == (result.changed && !options.noWriteMemory)
    && GoalHeld(session, result.wroteMemory)
    && (!result.changed ==> session.watch.progress == NOTHING_SENT)
    && (if Replaces(session.run.current, session.run.desired) && options.cleanupOld then
          CleanedUp(session, result.deletedOld)
        else result.deletedOld == [])
    && (result.deletedOld != [] && !options.noWriteMemory ==> JustSaved(session))
    && (result.deletedOld == [] ==> !session.watch.progress.cleaned)
  }

  /** The report of a failed run claims no more than was done. */
  ghost predicate FailureReported(session: Session, result: SyncResult)
    reads session
  {
    && (result.bound ==> session.watch.progress.bound)
    && (result.wroteMemory ==> session.watch.progress.save.Persisted?)
    && (result.uploaded <==> session.watch.progress.mineCertificates + session.watch.progress.mineKeys != {})
    && result.stage != Complete && (result.rolledBack <==> result.stage == RolledBackStage)
  }

  /** What a conflict says: the revision awaited at that point, and another one that
      was read. */
  ghost predicate Contradicts(run: Run, bound: bool, at: Checkpoint, expected: TemplateRevision, seen: Content) {
    match at
    case InitialCompare => false
    case PreBind => !bound && expected == RevisionOf(run.baseline) && seen != run.baseline
    case PostBind =>
      if bound then expected == RevisionOf(run.added) && seen !in {run.added, run.goal}
      else expected == RevisionOf(run.baseline) && seen != run.baseline
    case OldBinding => expected == RevisionOf(run.added) && seen == run.added && !Keyed(run.baseline.bindings)
    case PreUnbind => expected == RevisionOf(run.added) && seen != run.added
    case PostUnbind => expected == RevisionOf(run.goal) && seen != run.goal
    case PrePersistence => expected == RevisionOf(run.goal) && seen != run.goal
  }

  /** What a failure says of the template: what the last read showed, as long as no
      binding change was sent after it. A conflict is reported by the program right
      after the read that showed it. */
  ghost predicate Explains(run: Run, w: Watch, fault: Fault) {
    match fault
    case CallFailed => CallLost(run, w)
    case Collides => !w.progress.bound
    case BindFailed => w.progress.bound && w.view.settled == Some(run.baseline)
    case SaveFault => w.progress.save.Restored? && w.view.settled == Some(run.baseline)
    case Conflict(at, expected, actual) =>
      && w.view.settled.Some? && actual == RevisionOf(w.view.settled.value)
      && (at != OldBinding ==> w.diverged || (w.progress.bound && w.view.read == w.view.settled))
      && Contradicts(run, w.progress.bound, at, expected, w.view.settled.value)
    case Ambiguous(expected, actual) =>
      && w.progress.bound && expected == RevisionOf(run.added)
      && (w.view.settled.Some? ==> w.view.settled.value !in {run.baseline, run.added, run.goal})
      && actual == RevisionOf(if w.view.settled.None? then run.baseline else w.view.settled.value)
    case RollbackFailed(cause, _) =>
      (cause == SaveFault && w.progress.save.Failed?) || (!w.progress.bound && Explains(run, w, cause))
    case _ => false
  }

  /** How a failed save ends: with a sole writer everything is brought back only if
      the run is restorable, and exactly then if no other call failed. */
  ghost predicate UndoDecided(session: Session, rolledBack: bool)
    reads session
  {
    session.sole && (session.watch.progress.save.Failed? || session.watch.progress.save.Restored?) ==>
      && (rolledBack <==> session.watch.progress.save.Restored?)
      && (rolledBack ==> Restorable(session.run))
      && (session.watch.failures == 1 ==> (rolledBack <==> Restorable(session.run)))
  }

  /** A compensation of a sole writer fails only with a failing call of its own. */
  ghost predicate CompensationDecided(session: Session, fault: Fault)
    reads session
  {
    session.sole && session.watch.progress.save.Untried? && fault.RollbackFailed? ==>
      session.watch.failures >= if fault.cause == Collides then 1 else 2
  }

  /** A failed run says what it left behind. */
  ghost predicate FailsHonestly(session: Session, result: SyncResult, fault: Fault)
    reads session, session.device
  {
    && FailureReported(session, result) && Explains(session.run, session.watch, fault)
    && (session.watch.progress.save.Failed? ==> fault.RollbackFailed?)
    && (session.sole && result.rolledBack ==> AsBefore(session))
    && (result.uploaded && !session.watch.progress.bound ==> result.rolledBack || fault.RollbackFailed?)
    && UndoDecided(session, result.rolledBack) && CompensationDecided(session, fault)
  }

  lemma EmptyIsNothing(uploaded: Material)
    requires uploaded.Empty()
    ensures SentOnly(uploaded) == NOTHING_SENT
  {
    assert uploaded.Certificates() == {} && uploaded.Keys() == {};
  }

  /** Nothing was reported before the attempt. */
  predicate Blank(before: SyncResult) {
    && !before.changed && !before.bound && !before.unboundOld && !before.wroteMemory && !before.rolledBack
    && before.stage != Complete && before.stage != RolledBackStage
  }

  lemma SuccessReported(session: Session, options: Options, before: SyncResult, attempt: Attempt, desired: Binding,
      current: Option<Binding>, hadDesired: bool)
    requires AttemptMeans(session, attempt, options, desired, current, hadDesired) && attempt.Result().None?
      && Blank(before)
    requires Leaves(session, attempt) && Plain(current) == session.run.current
      && desired.Logical() == session.run.desired
    requires hadDesired <==> session.run.desired in session.run.baseline.bindings
    ensures ReportsExactly(session, AttemptReport(before, attempt, Replacing(current, desired)))
  {
    MaterialUploaded(attempt.uploaded);
  }

  lemma SuccessMeans(session: Session, options: Options, before: SyncResult, attempt: Attempt, desired: Binding,
      current: Option<Binding>, hadDesired: bool)
    requires AttemptMeans(session, attempt, options, desired, current, hadDesired) && attempt.Result().None?
      && Blank(before)
    requires Plain(current) == session.run.current && desired.Logical() == session.run.desired
    requires hadDesired <==> session.run.desired in session.run.baseline.bindings
    ensures Succeeds(session, options, AttemptReport(before, attempt, Replacing(current, desired)))
  {
    AttemptLeaves(session, options, attempt, desired, current, hadDesired);
    SuccessReported(session, options, before, attempt, desired, current, hadDesired);
    if attempt.uploaded.Empty() {
      EmptyIsNothing(attempt.uploaded);
    }
  }

  /** What a failed attempt leaves for the compensation. */
  ghost predicate Leaves(session: Session, attempt: Attempt)
    reads session, session.device
  {
    && Recorded(session.watch.progress, attempt.uploaded) && session.watch.progress.bound == attempt.Mutated()
  }

  lemma AttemptLeaves(session: Session, options: Options, attempt: Attempt, desired: Binding, current: Option<Binding>,
      hadDesired: bool)
    requires AttemptMeans(session, attempt, options, desired, current, hadDesired)
    ensures Leaves(session, attempt)
  {
  }

  /** With a sole writer, uploads that need compensation were made before anything
      else was tried. */
  lemma CompensatesEarly(session: Session, options: Options, attempt: Attempt, desired: Binding,
      current: Option<Binding>, baseline: ClientTemplate)
    requires session.Valid() && session.sole && ContentOf(baseline) == session.run.baseline
      && desired.Logical() == session.run.desired
    requires AttemptMeans(session, attempt, options, desired, current, HasBinding(baseline.certificates, desired))
    requires !attempt.uploaded.Empty() && !attempt.Mutated()
    ensures session.Actual() == session.run.baseline && !session.watch.progress.cleaned && !attempt.Concluded?
    ensures attempt.Result() != Some(Collides) ==> session.watch.failures > 0
    ensures !attempt.Result().value.RollbackFailed?
  {
    AttemptLeaves(session, options, attempt, desired, current, HasBinding(baseline.certificates, desired));
    UploadsMeanUnbound(session.run, session.device.world, session.watch.progress, session.watch.view, attempt.uploaded);
    BoundOrAlready(session.run, baseline, desired);
  }

  lemma RotationExplained(session: Session, fault: Fault, course: Course)
    requires RotationFault(session, fault, course) && session.watch.progress.bound == course.mutated
    requires course.accepted ==> course.mutated
    ensures Explains(session.run, session.watch, fault)
  {
  }

  /** Every failure is explained by what was read. */
  lemma FaultExplained(session: Session, options: Options, attempt: Attempt, desired: Binding, current: Option<Binding>,
      hadDesired: bool)
    requires AttemptMeans(session, attempt, options, desired, current, hadDesired) && attempt.Result().Some?
    ensures Explains(session.run, session.watch, attempt.Result().value)
  {
    AttemptLeaves(session, options, attempt, desired, current, hadDesired);
    if attempt.RotationFailed? {
      RotationExplained(session, attempt.fault, attempt.course);
    }
  }

  lemma FailedSaveIsAmbiguous(session: Session, options: Options, attempt: Attempt, desired: Binding,
      current: Option<Binding>, hadDesired: bool)
    requires AttemptMeans(session, attempt, options, desired, current, hadDesired)
    requires attempt.Result().Some? && session.watch.progress.save.Failed?
    ensures attempt.Result().value.RollbackFailed?
  {
  }

  lemma UndoneIsAsBefore(session: Session, options: Options, attempt: Attempt, desired: Binding,
      current: Option<Binding>, hadDesired: bool)
    requires AttemptMeans(session, attempt, options, desired, current, hadDesired)
    requires session.sole && attempt.Concluded? && attempt.ending.SaveUndone?
    ensures AsBefore(session)
  {
  }

  lemma FailureReport(session: Session, options: Options, before: SyncResult, attempt: Attempt, desired: Binding,
      current: Option<Binding>, hadDesired: bool)
    requires AttemptMeans(session, attempt, options, desired, current, hadDesired) && Blank(before)
      && attempt.Result().Some?
    ensures FailureReported(session, AttemptReport(before, attempt, Replacing(current, desired)))
  {
    AttemptLeaves(session, options, attempt, desired, current, hadDesired);
    MaterialUploaded(attempt.uploaded);
  }

  /** Only a failed save is rolled back, and the report says so. */
  lemma UndoReported(session: Session, options: Options, before: SyncResult, attempt: Attempt, desired: Binding,
      current: Option<Binding>, hadDesired: bool)
    requires AttemptMeans(session, attempt, options, desired, current, hadDesired) && Blank(before)
      && attempt.Result().Some?
    ensures UndoDecided(session, AttemptReport(before, attempt, Replacing(current, desired)).rolledBack)
  {
  }

  /** An attempt reports no failed compensation: none has been tried. */
  lemma NotYetCompensated(session: Session, options: Options, attempt: Attempt, desired: Binding,
      current: Option<Binding>, hadDesired: bool)
    requires AttemptMeans(session, attempt, options, desired, current, hadDesired) && attempt.Result().Some?
    ensures CompensationDecided(session, attempt.Result().value)
  {
  }

  /** A failed attempt that needs no compensation. */
  lemma FailureMeans(session: Session, options: Options, before: SyncResult, attempt: Attempt, desired: Binding,
      current: Option<Binding>, hadDesired: bool)
    requires AttemptMeans(session, attempt, options, desired, current, hadDesired) && Blank(before)
    requires attempt.Result().Some? && (attempt.uploaded.Empty() || attempt.Mutated())
    ensures FailsHonestly(session, AttemptReport(before, attempt, Replacing(current, desired)),
      attempt.Result().value)
  {
    AttemptLeaves(session, options, attempt, desired, current, hadDesired);
    FailureReport(session, options, before, attempt, desired, current, hadDesired);
    FaultExplained(session, options, attempt, desired, current, hadDesired);
    UndoReported(session, options, before, attempt, desired, current, hadDesired);
    NotYetCompensated(session, options, attempt, desired, current, hadDesired);
    if session.watch.progress.save.Failed? {
      FailedSaveIsAmbiguous(session, options, attempt, desired, current, hadDesired);
    }
    if session.sole && attempt.Concluded? && attempt.ending.SaveUndone? {
      UndoneIsAsBefore(session, options, attempt, desired, current, hadDesired);
    }
  }

  /** What the compensation can rely on. */
  ghost predicate Compensable(session: Session, attempt: Attempt, cause: Fault)
    reads session, session.device
  {
    && session.Valid() && Recorded(session.watch.progress, attempt.uploaded) && !session.watch.progress.bound
    && (session.watch.progress.save.Failed? ==> cause.RollbackFailed?)
    && Explains(session.run, session.watch, cause)
    && (session.sole ==>
          && session.Actual() == session.run.baseline && !session.watch.progress.cleaned
          && !attempt.Concluded? && session.watch.progress.save.Untried?
          && !cause.RollbackFailed? && (cause != Collides ==> session.watch.failures > 0))
  }

  lemma AttemptCompensable(session: Session, options: Options, attempt: Attempt, desired: Binding,
      current: Option<Binding>, baseline: ClientTemplate)
    requires session.Valid() && ContentOf(baseline) == session.run.baseline && desired.Logical() == session.run.desired
    requires AttemptMeans(session, attempt, options, desired, current, HasBinding(baseline.certificates, desired))
    requires attempt.Result().Some? && !attempt.uploaded.Empty() && !attempt.Mutated()
    ensures Compensable(session, attempt, attempt.Result().value)
  {
    var hadDesired := HasBinding(baseline.certificates, desired);
    var cause := attempt.Result().value;
    AttemptLeaves(session, options, attempt, desired, current, hadDesired);
    FaultExplained(session, options, attempt, desired, current, hadDesired);
    if session.watch.progress.save.Failed? {
      FailedSaveIsAmbiguous(session, options, attempt, desired, current, hadDesired);
    }
    if session.sole {
      CompensatesEarly(session, options, attempt, desired, current, baseline);
    }
  }

  /** Only deletions and reads since: what explained the cause still does. */
  lemma StillExplains(run: Run, before: Watch, after: Watch, cause: Fault, fault: Fault)
    requires Explains(run, before, cause) && !before.progress.bound
    requires after.progress == before.progress.(deleted := after.progress.deleted)
    requires after.view.settled == before.view.settled && after.diverged == before.diverged
    requires after.failures >= before.failures
    requires fault == cause || (fault.RollbackFailed? && fault.cause == cause)
    ensures Explains(run, after, fault)
  {
  }

  method CompensateAttempt(session: Session, attempt: Attempt, reported: SyncResult, cause: Fault)
    returns (result: SyncResult, fault: Fault)
    requires Compensable(session, attempt, cause) && attempt.uploaded.Sendable()
    requires FailureReported(session, reported) && (reported.rolledBack ==> attempt.Concluded?)
    modifies session`log, session`watch, session.device
    ensures session.Valid() && session.watch.failures >= old(session.watch.failures)
    ensures FailsHonestly(session, result, fault) && SameHeader(reported, result)
    ensures fault == cause || fault.RollbackFailed?
    ensures session.sole && session.watch.failures == old(session.watch.failures) ==> fault == cause
  {
    var undone;
    fault, undone := Compensate(session, attempt.uploaded, cause);
    StillExplains(session.run, old(session.watch), session.watch, cause, fault);
    result := if undone then reported.(rolledBack := true, stage := RolledBackStage) else reported;
  }

  /** How an attempt may be reported. */
  ghost predicate Reported(session: Session, options: Options, attempt: Attempt, report: SyncResult)
    reads session, session.device
  {
    if attempt.Result().None? then Succeeds(session, options, report)
    else if attempt.uploaded.Empty() || attempt.Mutated() then FailsHonestly(session, report, attempt.Result().value)
    else
      && Compensable(session, attempt, attempt.Result().value) && FailureReported(session, report)
      && (report.rolledBack ==> attempt.Concluded?)
  }

  /** How the attempt is judged: done, failed, or failed with uploads to undo. */
  lemma Judged(session: Session, options: Options, before: SyncResult, attempt: Attempt, desired: Binding,
      current: Option<Binding>, baseline: ClientTemplate)
    requires session.Valid() && Situation(session.run, baseline, desired, current) && Blank(before)
    requires AttemptMeans(session, attempt, options, desired, current, HasBinding(baseline.certificates, desired))
    ensures Reported(session, options, attempt, AttemptReport(before, attempt, Replacing(current, desired)))
  {
    var hadDesired := HasBinding(baseline.certificates, desired);
    BoundOrAlready(session.run, baseline, desired);
    if attempt.Result().None? {
      SuccessMeans(session, options, before, attempt, desired, current, hadDesired);
    } else if attempt.uploaded.Empty() || attempt.Mutated() {
      FailureMeans(session, options, before, attempt, desired, current, hadDesired);
    } else {
      FailureReport(session, options, before, attempt, desired, current, hadDesired);
      AttemptCompensable(session, options, attempt, desired, current, baseline);
    }
  }

  method TryAndReport(session: Session, template: string, options: Options, bundle: Bundle, baseline: ClientTemplate,
      baselineRevision: TemplateRevision, desired: Binding, current: Option<Binding>, named: string, before: SyncResult)
    returns (attempt: Attempt, report: SyncResult)
    requires template == session.run.name && Fresh(session, options, bundle, baseline, desired, current, named)
    requires baselineRevision == RevisionOf(session.run.baseline) && Blank(before)
    modifies session`log, session`watch, session.device
    ensures session.Valid() && session.watch.failures >= old(session.watch.failures)
    ensures Reported(session, options, attempt, report) && SameHeader(before, report)
    ensures AttemptDecided(session, attempt, bundle) && attempt.uploaded.Sendable()
  {
    attempt := Try(session, template, options, bundle, baseline, baselineRevision, desired, current, named);
    Judged(session, options, before, attempt, desired, current, baseline);
    report := AttemptReport(before, attempt, Replacing(current, desired));
  }

  /** What decides how a sole writer's run ends. It succeeds only if every managed
      file that existed is described as the bundle's and the desired name was not
      bound otherwise. Without a failing call it ends with a collision, before
      anything is bound, if a file is not; else with a conflict, after the other
      entry of that name was overwritten, if the name was; else in the goal, unless
      the old name cannot be sent and the appliance did not replace the entry by
      itself. Then the lists decide whether a cleanup completes. */
  ghost predicate Decided(session: Session, bundle: Bundle, fault: Option<Fault>)
    requires Managed(session.run.desired, bundle)
    reads session, session.device
  {
    session.sole ==>
      var fits := MetadataFits(session.run.start, session.run.desired, bundle);
      && (fault.None? ==> fits && !Occupied(session.run)) && (fault == Some(Collides) ==> !fits)
      && (session.watch.failures == 0 ==>
            if !fits then fault == Some(Collides)
            else if Occupied(session.run) then fault.Some? && Clash(session, fault.value)
            else
              && (OldSendable(session.run) ==> fault.None?)
              && (if session.Actual() == session.run.goal then CleanupDecided(session, fault.None?)
                  else fault.Some? && Unremoved(session, fault.value)))
  }

  /** A state that holds the goal has one entry per name, so the name was free. */
  lemma GoalMeansFree(run: Run, world: World, p: Progress, v: View)
    requires Kept(run, world, p, v) && run.name in world.running.clients
    requires SlotContent(run.name, world.running.clients[run.name]) == run.goal
    ensures !Occupied(run)
  {
    assert Sole(run, world, p, v);
    assert Plan(run);
    UniqueKeyed(EntriesAt(run, world));
    forall e | e in run.baseline.bindings && e.certificate == run.desired.certificate ensures e == run.desired {
      GoalEntries(run.baseline, run.desired, run.current, e);
    }
  }

  /** A failed attempt that is compensated, without a failing call, met a collision. */
  lemma StoppedEarly(session: Session, attempt: Attempt, bundle: Bundle)
    requires Managed(session.run.desired, bundle) && AttemptDecided(session, attempt, bundle)
    requires attempt.Result().Some? && Compensable(session, attempt, attempt.Result().value)
    ensures session.sole && attempt.Result() == Some(Collides) ==>
      !MetadataFits(session.run.start, session.run.desired, bundle)
    ensures session.sole && session.watch.failures == 0 ==> attempt.Result() == Some(Collides)
  {
  }

  lemma AttemptDecides(session: Session, options: Options, attempt: Attempt, result: SyncResult, bundle: Bundle)
    requires session.Valid() && Managed(session.run.desired, bundle) && AttemptDecided(session, attempt, bundle)
    requires attempt.Result().None? ==> Succeeds(session, options, result)
    ensures Decided(session, bundle, attempt.Result())
  {
    if attempt.Result().None? && session.sole {
      assert Sole(session.run, session.device.world, session.watch.progress, session.watch.view);
      GoalMeansFree(session.run, session.device.world, session.watch.progress, session.watch.view);
    }
    if OldSendable(session.run) && DoomedDecide(session, attempt.Result().None?)
      && Replaces(session.run.current, session.run.desired) && session.run.cleanup {
      DoomedIsOld(session, attempt.Result().None?);
    }
  }

  method SyncSelected(session: Session, template: string, options: Options, bundle: Bundle, baseline: ClientTemplate,
      baselineRevision: TemplateRevision, desired: Binding, current: Option<Binding>, named: string, before: SyncResult)
    returns (result: SyncResult, fault: Option<Fault>)
    requires template == session.run.name && Fresh(session, options, bundle, baseline, desired, current, named)
    requires baselineRevision == RevisionOf(session.run.baseline) && Blank(before)
    modifies session`log, session`watch, session.device
    ensures session.Valid() && session.watch.failures >= old(session.watch.failures)
    ensures SameHeader(before, result)
    ensures fault.None? ==> Succeeds(session, options, result)
    ensures fault.Some? ==> FailsHonestly(session, result, fault.value)
    ensures Decided(session, bundle, fault)
  {
    var attempt;
    attempt, result := TryAndReport(session, template, options, bundle, baseline, baselineRevision, desired, current,
                                    named, before);
    fault := attempt.Result();
    if fault.Some? && !attempt.uploaded.Empty() && !attempt.Mutated() {
      var compensated;
      StoppedEarly(session, attempt, bundle);
      result, compensated := CompensateAttempt(session, attempt, result, fault.value);
      fault := Some(compensated);
    } else {
      AttemptDecides(session, options, attempt, result, bundle);
    }
  }
}
