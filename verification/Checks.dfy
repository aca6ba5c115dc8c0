/** Failures of a synchronization, and the check that fails closed when the
    template is not in the expected state. */
module Checks {
  import opened Wrappers
  import opened Templates
  import opened Revision
  import opened Contents
  import opened Monitor
  import opened Names
  import opened Sessions
  import opened Rollback
  import opened Restore

  datatype Checkpoint =
    | InitialCompare | PreBind | PostBind | OldBinding | PreUnbind | PostUnbind | PrePersistence

  datatype Fault =
    | Invalid | Unsupported | Naming | Unselectable
    | CallFailed | BindFailed | SaveFault
    | Collides
    | Conflict(at: Checkpoint, expected: TemplateRevision, actual: TemplateRevision)
    | Ambiguous(expected: TemplateRevision, actual: TemplateRevision)
    | RollbackFailed(cause: Fault, undo: UndoFault)
  {
    /** Matches the sentinel for ambiguous state. */
    predicate IsAmbiguous() {
      Ambiguous? || RollbackFailed?
    }

    /** Matches the sentinel for conflicts; a rollback error keeps its cause. */
    predicate IsConflict() {
      Conflict? || (RollbackFailed? && cause.IsConflict())
    }
  }

  /** An entry that is to be replaced has a certificate name that can be sent. */
  predicate Removable(run: Run) {
    Replaces(run.current, run.desired) ==> ValidFileName(run.current.value.certificate)
  }

  /** Every old name that the run may have to send can be sent: the certificate of an
      entry that is to be replaced, and in a cleanup its key and chain. */
  predicate OldSendable(run: Run) {
    Replaces(run.current, run.desired) ==>
      && ValidFileName(run.current.value.certificate)
      && (run.cleanup && run.current.value.key != "" ==> ValidFileName(run.current.value.key))
      && (run.cleanup && run.current.value.chain != "" ==> ValidFileName(run.current.value.chain))
  }

  /** A call failed, or could not be sent because of an old name. */
  predicate CallLost(run: Run, w: Watch) {
    w.failures > 0 || !OldSendable(run)
  }

  /** The forward part of a run: no save tried, nothing deleted, nothing
      unexplained seen. */
  ghost predicate Forward(session: Session)
    reads session, session.device
  {
    && session.Valid() && !session.watch.diverged
    && session.watch.progress.save.Untried? && !session.watch.progress.deleted
  }

  /** The values the protocol works with are those of the run. */
  ghost predicate Situation(run: Run, baseline: ClientTemplate, desired: Binding, current: Option<Binding>) {
    && baseline.name == run.name && ContentOf(baseline) == run.baseline
    && desired.Logical() == run.desired && Plain(current) == run.current
    && (current.Some? ==> current.value in baseline.certificates)
  }

  /** The template was read last, and showed this; with a sole writer it is so. */
  ghost predicate Shows(session: Session, content: Content)
    reads session, session.device
  {
    && session.watch.view.read == Some(content) && session.watch.view.settled == Some(content)
    && (session.sole ==> session.Actual() == content)
  }

  datatype Checked = Agreed(template: ClientTemplate) | Refused(fault: Fault)

  /** Comparing revisions decides equality of content. */
  method Compare(template: ClientTemplate, ghost content: Content, expected: TemplateRevision, at: Checkpoint)
    returns (r: Checked)
    requires Reserved(content) && expected == RevisionOf(content)
    ensures r == if ContentOf(template) == content then Agreed(template)
                 else Refused(Conflict(at, RevisionOf(content), RevisionOf(ContentOf(template))))
  {
    var actual := ComputeRevision(template);
    RestAvoidsReserved(template);
    RevisionInjective(ContentOf(template), content);
    r := if actual == expected then Agreed(template) else Refused(Conflict(at, expected, actual));
  }

  /** No bind or unbind was sent since, and the template was not read either. */
  predicate NoBindingSent(before: Watch, after: Watch) {
    && after.failures >= before.failures && after.unbound == before.unbound
    && after.view.settled == before.view.settled
  }

  /** Only the view of the template and the count of failures may differ. */
  predicate OnlyRead(before: Watch, after: Watch) {
    && after.progress == before.progress && after.failures >= before.failures && after.unbound == before.unbound
    && after.view.certificates == before.view.certificates && after.view.keys == before.view.keys
  }

  /** A template read of the forward part. */
  method ReadBack(session: Session, template: string) returns (read: Option<ClientTemplate>)
    requires template == session.run.name && Forward(session)
    modifies session`log, session`watch, session.device
    ensures |session.log| == |old(session.log)| + 1
    ensures session.Valid() && OnlyRead(old(session.watch), session.watch)
    ensures session.watch.failures == old(session.watch.failures) + (if read.Some? then 0 else 1)
    ensures read.None? ==> session.watch.view.settled == old(session.watch.view.settled)
    ensures session.sole ==> session.device.world == old(session.device.world)
    ensures read.Some? ==> Shows(session, ContentOf(read.value)) && read.value.name == template
    ensures read.None? ==> session.watch.view.read.None? && !session.watch.diverged
    ensures read.Some? ==> session.watch.diverged == !Expected(session.run, old(session.watch), ContentOf(read.value))
  {
    read := session.GetClientSSLTemplate(template);
  }

  /** A conflict reports the revision that was awaited and the one that the call
      just before it showed, which is another. */
  ghost predicate Diverges(session: Session, fault: Fault, at: Checkpoint, content: Content)
    reads session
  {
    var view := session.watch.view;
    && view.read.Some? && view.settled == view.read && view.read.value != content && session.watch.diverged
    && fault == Conflict(at, RevisionOf(content), RevisionOf(view.read.value))
  }

  /** What the outcome of a check says. */
  ghost predicate CheckMeans(session: Session, r: Checked, at: Checkpoint, content: Content)
    reads session, session.device
  {
    match r
    case Agreed(template) =>
      && !session.watch.diverged && Shows(session, content)
      && template.name == session.run.name && ContentOf(template) == content
    case Refused(fault) => fault == CallFailed || Diverges(session, fault, at, content)
  }

  lemma Compared(session: Session, read: ClientTemplate, r: Checked, at: Checkpoint, content: Content)
    requires Shows(session, ContentOf(read)) && read.name == session.run.name
    requires session.watch.diverged == (ContentOf(read) != content)
    requires r == if ContentOf(read) == content then Agreed(read)
                  else Refused(Conflict(at, RevisionOf(content), RevisionOf(ContentOf(read))))
    ensures CheckMeans(session, r, at, content)
  {
  }

  lemma OnlyAwaited(run: Run, w: Watch, content: Content, seen: Content)
    requires Awaits(run, w, content)
    ensures Expected(run, w, seen) <==> seen == content
  {
  }

  /** Reads the template and compares its revision with the expected one. */
  method RequireTemplateRevision(session: Session, template: string, ghost content: Content, expected: TemplateRevision,
      at: Checkpoint)
    returns (r: Checked)
    requires template == session.run.name && Forward(session)
    requires Reserved(content) && expected == RevisionOf(content) && Awaits(session.run, session.watch, content)
    modifies session`log, session`watch, session.device
    ensures |session.log| == |old(session.log)| + 1 && session.Valid()
    ensures OnlyRead(old(session.watch), session.watch)
    ensures session.watch.failures == old(session.watch.failures) + (if r == Refused(CallFailed) then 1 else 0)
    ensures session.sole ==> session.device.world == old(session.device.world)
    ensures CheckMeans(session, r, at, content)
    ensures session.sole && session.watch.failures == old(session.watch.failures) && session.Actual() == content ==>
      r.Agreed?
  {
    var read := ReadBack(session, template);
    if read.None? {
      return Refused(CallFailed);
    }
    OnlyAwaited(session.run, old(session.watch), content, ContentOf(read.value));
    r := Compare(read.value, content, expected, at);
    Compared(session, read.value, r, at, content);
  }
}
