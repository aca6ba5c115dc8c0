/** Saving the verified goal, or bringing everything back when that fails. */
module Persisting {
  import opened Wrappers
  import opened Templates
  import opened Revision
  import opened Appliance
  import opened Monitor
  import opened Safety
  import opened Sessions
  import opened Rollback
  import opened Restore
  import opened Checks

  datatype Persistence = Written | Unverified(fault: Fault) | Undone | Stuck(undo: UndoFault)

  /** The goal is reached and expected to stay. */
  ghost predicate Settled(session: Session, expected: ClientTemplate)
    reads session, session.device
  {
    && Forward(session) && expected.name == session.run.name && ContentOf(expected) == session.run.goal
    && session.watch.view.settled == Some(session.run.goal)
    && (session.sole ==> session.Actual() == session.run.goal)
  }

  /** What is known before the save, and is needed if it fails. */
  ghost predicate Savable(session: Session, baseline: ClientTemplate, expected: ClientTemplate, desired: Binding,
      named: string, uploaded: Material)
    reads session, session.device
  {
    && Settled(session, expected) && Given(session.run, baseline, desired, named)
    && Recorded(session.watch.progress, uploaded) && uploaded.Sendable()
    && !session.run.noWrite && Altered(session.run, session.watch.progress)
  }

  lemma SavedIsRunning(run: Run, world: World, p: Progress, v: View)
    requires Kept(run, world, p, v) && p.save.Persisted?
    ensures world.saved == world.running
  {
    assert Sole(run, world, p, v);
  }

  /** The goal could not be read, or is no longer there. */
  ghost predicate SaveRefused(session: Session, fault: Fault)
    reads session
  {
    (fault == CallFailed && session.watch.failures > 0) || Diverges(session, fault, PrePersistence, session.run.goal)
  }

  method SendSave(session: Session) returns (ok: bool)
    requires Forward(session) && Shows(session, session.run.goal) && !session.run.noWrite
    requires Altered(session.run, session.watch.progress)
    modifies session`log, session`watch, session.device
    ensures |session.log| == |old(session.log)| + 1
    ensures session.Valid() && !session.watch.diverged
    ensures session.watch.failures == old(session.watch.failures) + (if ok then 0 else 1)
    ensures session.watch.progress == old(session.watch.progress).(save := if ok then Persisted else Failed)
    ensures session.watch.view.settled == old(session.watch.view.settled)
    ensures session.sole ==> session.device.world == old(session.device.world).(saved := session.device.world.saved)
    ensures session.sole && ok ==> session.device.world.saved == session.device.world.running
  {
    ok := session.WriteMemory();
    if session.sole && ok {
      SavedIsRunning(session.run, session.device.world, session.watch.progress, session.watch.view);
    }
  }

  /** Requires the goal and asks to save it. */
  method SaveGoal(session: Session, template: string, expected: ClientTemplate) returns (fault: Option<Fault>)
    requires template == session.run.name && Settled(session, expected) && !session.run.noWrite
    requires Altered(session.run, session.watch.progress)
    modifies session`log, session`watch, session.device
    ensures fault.None? ==> |session.log| == |old(session.log)| + 2
    ensures session.Valid() && session.watch.failures >= old(session.watch.failures)
    ensures session.watch.progress == old(session.watch.progress).(save := session.watch.progress.save)
    ensures session.sole ==> session.device.world == old(session.device.world).(saved := session.device.world.saved)
    ensures fault.None? ==> session.watch.progress.save.Persisted? && !session.watch.diverged
    ensures fault.None? ==> session.watch.view.settled == Some(session.run.goal)
    ensures fault == Some(SaveFault) ==> session.watch.progress.save.Failed? && !session.watch.diverged
                                         && session.watch.failures == old(session.watch.failures) + 1
    ensures fault.Some? && fault != Some(SaveFault) ==>
      session.watch.progress.save.Untried? && SaveRefused(session, fault.value)
    ensures session.sole && fault.None? ==> session.device.world.saved == session.device.world.running
    ensures session.sole && session.watch.failures == old(session.watch.failures) ==> fault.None?
  {
    var revision := ComputeRevision(expected);
    RestAvoidsReserved(expected);
    var checked := RequireTemplateRevision(session, template, session.run.goal, revision, PrePersistence);
    if checked.Refused? {
      return Some(checked.fault);
    }
    var ok := SendSave(session);
    fault := if ok then None else Some(SaveFault);
  }

  /** What each outcome says. */
  ghost predicate PersistenceMeans(session: Session, outcome: Persistence, before: Progress, uploaded: Material)
    reads session, session.device
  {
    SameMaterial(before, session.watch.progress) &&
    match outcome
    case Written =>
      && !session.watch.diverged && session.watch.view.settled == Some(session.run.goal)
      && session.watch.progress == before.(save := session.watch.progress.save)
    case Unverified(fault) => session.watch.progress == before && SaveRefused(session, fault)
    case Undone =>
      && session.watch.progress.save.Restored? && session.watch.view.settled == Some(session.run.baseline)
      && Gone(session.watch.view, uploaded)
      && (session.sole ==> session.Actual() == session.run.baseline && Untraced(session.run, session.device.world))
      && (session.sole ==> Restorable(session.run))
    case Stuck(_) =>
      && session.watch.progress.save.Failed?
      && (session.sole && session.watch.failures == 1 ==> !Restorable(session.run))
  }

  /** Saves, and rolls back if the save fails. With a sole writer and no other
      failing call in the run, the rollback succeeds exactly if the run is
      restorable. */
  method Persist(session: Session, template: string, baseline: ClientTemplate, expected: ClientTemplate,
      desired: Binding, named: string, uploaded: Material)
    returns (outcome: Persistence)
    requires template == session.run.name && Savable(session, baseline, expected, desired, named, uploaded)
    modifies session`log, session`watch, session.device
    ensures session.Valid() && session.watch.failures >= old(session.watch.failures)
    ensures PersistenceMeans(session, outcome, old(session.watch.progress), uploaded)
    ensures outcome.Undone? || outcome.Stuck? ==> session.watch.failures > old(session.watch.failures)
    ensures outcome.Written? ==> session.watch.progress.save.Persisted?
    ensures session.sole && outcome.Written? ==>
      session.device.world == old(session.device.world).(saved := session.device.world.running)
    ensures session.sole && session.watch.failures == old(session.watch.failures) ==> outcome.Written?
  {
    var fault := SaveGoal(session, template, expected);
    if fault.None? {
      return Written;
    }
    if fault != Some(SaveFault) {
      return Unverified(fault.value);
    }
    var undo := RollbackSynchronization(session, template, baseline, expected, desired, named, uploaded);
    outcome := if undo.None? then Undone else Stuck(undo.value);
  }
}
