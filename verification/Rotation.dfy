/** The binding change: bind the desired entry, find out what the appliance made
    of it, and remove the old entry if it is still there. */
module Rotation {
  import opened Wrappers
  import opened Templates
  import opened Revision
  import opened Contents
  import opened Appliance
  import opened Monitor
  import opened Safety
  import opened Names
  import opened Sessions
  import opened Restore
  import opened Checks

  // ---- what a bind request led to ----

  datatype BindOutcome =
    | Appended | Replaced  // go on
    | NotBound             // refused without effect: safe to repeat
    | Unclear              // refused, yet neither before nor after is observed
    | Unexpected           // accepted, but another state is observed

  ghost function BindOutcomeOf(baseline: Content, desired: Entry, current: Option<Entry>, accepted: bool,
      seen: Content): BindOutcome {
    if seen == Added(baseline, desired) then Appended
    else if Replaces(current, desired) && seen == Goal(baseline, desired, current) then Replaced
    else if !accepted && seen == baseline then NotBound
    else if !accepted then Unclear
    else Unexpected
  }

  /** The classification is total and exact. */
  lemma BindOutcomeExact(baseline: Content, desired: Entry, current: Option<Entry>, accepted: bool, seen: Content)
    requires desired !in baseline.bindings
    ensures var outcome := BindOutcomeOf(baseline, desired, current, accepted, seen);
            var added, goal := Added(baseline, desired), Goal(baseline, desired, current);
            && (outcome.Appended? || outcome.Replaced? <==> seen == added || seen == goal)
            && (outcome.NotBound? <==> !accepted && seen == baseline)
            && (outcome.Unclear? <==> !accepted && seen !in {baseline, added, goal})
            && (outcome.Unexpected? <==> accepted && seen !in {added, goal})
  {
    GoalEntries(baseline, desired, current, desired);
    assert desired in Added(baseline, desired).bindings;
  }

  /** The two templates that an accepted bind may lead to. */
  method BindExpectations(baseline: ClientTemplate, desired: Binding, current: Option<Binding>)
    returns (appended: ClientTemplate, replaced: ClientTemplate)
    ensures ContentOf(appended) == Added(ContentOf(baseline), desired.Logical())
    ensures ContentOf(replaced) == Goal(ContentOf(baseline), desired.Logical(), Plain(current))
  {
    appended := WithBinding(baseline, desired);
    replaced := appended;
    WithBindingContent(baseline, desired);
    if current.Some? && current.value.certificate != desired.certificate {
      replaced := TemplateWithoutCertificate(appended, current.value.certificate);
      WithoutCertificateContent(appended, current.value.certificate);
    }
  }

  /** The comparison of revisions computes the classification. */
  method ClassifyBind(baseline: ClientTemplate, desired: Binding, current: Option<Binding>, accepted: bool,
      verified: ClientTemplate)
    returns (outcome: BindOutcome)
    ensures outcome ==
      BindOutcomeOf(ContentOf(baseline), desired.Logical(), Plain(current), accepted, ContentOf(verified))
  {
    var appended, replaced := BindExpectations(baseline, desired, current);
    var isAppended := SameRevision(verified, appended);
    var isReplaced := SameRevision(verified, replaced);
    var isBaseline := SameRevision(verified, baseline);
    if isAppended {
      outcome := Appended;
    } else if current.Some? && current.value.certificate != desired.certificate && isReplaced {
      outcome := Replaced;
    } else if !accepted && isBaseline {
      outcome := NotBound;
    } else if !accepted {
      outcome := Unclear;
    } else {
      outcome := Unexpected;
    }
  }

  /** Whichever semantics the appliance has, an accepted bind of a new name is
      recognised. */
  lemma AcceptedBindRecognised(baseline: Content, desired: Entry, current: Option<Entry>, after: Content)
    requires !Holds(baseline.bindings, desired.certificate) && BindContent(baseline, after, desired)
    requires |baseline.bindings| == 1 ==> current.Some? && current.value in baseline.bindings
    ensures after == Added(baseline, desired)
      || (Replaces(current, desired) && after == Goal(baseline, desired, current))
  {
    assert desired !in baseline.bindings;
    DropAbsent(baseline.bindings, desired.certificate);
    if |baseline.bindings| == 1 && after == baseline.(bindings := multiset{desired}) {
      OnlyOne(baseline.bindings, current.value);
      DropAppend(baseline.bindings, desired, current.value.certificate);
    }
  }

  lemma OnlyOne(bag: multiset<Entry>, e: Entry)
    requires |bag| == 1 && e in bag
    ensures bag == multiset{e} && Drop(bag, e.certificate) == multiset{}
  {
    assert |bag - multiset{e}| == 0;
    assert bag == multiset{e} + (bag - multiset{e});
  }

  /** The desired name is bound at the start, and not as desired. */
  ghost predicate Occupied(run: Run) {
    Holds(run.baseline.bindings, run.desired.certificate) && run.desired !in run.baseline.bindings
  }

  /** What a bind then makes of the template: the entry of that name is lost. */
  ghost function Overwritten(run: Run): Content {
    run.baseline.(bindings := Drop(run.baseline.bindings, run.desired.certificate) + multiset{run.desired})
  }

  /** Either bind semantics overwrites, and neither leads to an expected state. */
  lemma OverwritingBind(run: Run, after: Content)
    requires Plan(run) && Keyed(run.baseline.bindings) && Occupied(run)
    requires BindContent(run.baseline, after, run.desired)
    ensures after == Overwritten(run) && after != run.added && after != run.goal
  {
    var e :| e in run.baseline.bindings && e.certificate == run.desired.certificate;
    if |run.baseline.bindings| == 1 {
      OnlyOne(run.baseline.bindings, e);
    }
    GoalEntries(run.baseline, run.desired, run.current, e);
    assert e in run.added.bindings && e in run.goal.bindings && e !in after.bindings;
  }

  // ---- binding the desired entry ----

  datatype Placement = Placed(expected: ClientTemplate, implicitly: bool) | Unplaced(fault: Fault)

  /** The template after a completed bind: appended, or the old entry replaced. */
  ghost predicate Reached(run: Run, expected: ClientTemplate, implicitly: bool) {
    && expected.name == run.name
    && (if implicitly then Replaces(run.current, run.desired) && ContentOf(expected) == run.goal
        else ContentOf(expected) == run.added)
  }

  /** What each failure of the bind says about the state that was read back. */
  ghost predicate BindFaultMeans(run: Run, accepted: bool, seen: Option<Content>, fault: Fault) {
    match fault
    case CallFailed => accepted && seen.None?
    case BindFailed => !accepted && seen == Some(run.baseline)
    case Conflict(at, expected, actual) =>
      && accepted && seen.Some? && seen.value !in {run.added, run.goal}
      && at == PostBind && expected == RevisionOf(run.added) && actual == RevisionOf(seen.value)
    case Ambiguous(expected, actual) =>
      && !accepted && (seen.Some? ==> seen.value !in {run.baseline, run.added, run.goal})
      && expected == RevisionOf(run.added)
      && actual == RevisionOf(if seen.None? then run.baseline else seen.value)
    case _ => false
  }

  /** The reaction to the response and to the state read back after it. */
  method InterpretBind(ghost run: Run, baseline: ClientTemplate, desired: Binding, current: Option<Binding>,
      accepted: bool, read: Option<ClientTemplate>)
    returns (r: Placement)
    requires Planned(run) && Situation(run, baseline, desired, current) && !HasBinding(baseline.certificates, desired)
    requires read.Some? ==> read.value.name == run.name
    ensures r.Placed? <==> read.Some? && (ContentOf(read.value) == run.added || ContentOf(read.value) == run.goal)
    ensures r.Placed? ==> read == Some(r.expected) && Reached(run, r.expected, r.implicitly)
    ensures r.Unplaced? ==>
      BindFaultMeans(run, accepted, if read.None? then None else Some(ContentOf(read.value)), r.fault)
  {
    assert Plan(run);
    HasBindingMember(baseline.certificates, desired);
    var appended, replaced := BindExpectations(baseline, desired, current);
    var intended := ComputeRevision(appended);
    if read.None? {
      var initial := ComputeRevision(baseline);
      r := Unplaced(if accepted then CallFailed else Ambiguous(intended, initial));
    } else {
      var actual := ComputeRevision(read.value);
      var outcome := ClassifyBind(baseline, desired, current, accepted, read.value);
      BindOutcomeExact(run.baseline, run.desired, run.current, accepted, ContentOf(read.value));
      match outcome {
        case Appended => r := Placed(read.value, false);
        case Replaced => r := Placed(read.value, true);
        case NotBound => r := Unplaced(BindFailed);
        case Unclear => r := Unplaced(Ambiguous(intended, actual));
        case Unexpected => r := Unplaced(Conflict(PostBind, intended, actual));
      }
    }
  }

  /** Right before the bind: the baseline was just read, the files are there. */
  ghost predicate ReadyToBind(session: Session)
    reads session, session.device
  {
    && Forward(session) && !session.watch.progress.bound && !session.watch.unbound
    && Shows(session, session.run.baseline) && session.run.desired !in session.run.baseline.bindings
    && MaterialReady(session.run, session.watch.progress, session.watch.view)
  }

  ghost predicate AfterBind(session: Session, expected: ClientTemplate, implicitly: bool)
    reads session, session.device
  {
    && Forward(session) && !session.watch.unbound
    && Shows(session, ContentOf(expected)) && Reached(session.run, expected, implicitly)
  }

  /** Nothing but the bind was sent by the binding phase. */
  ghost predicate OnlyBound(before: Progress, after: Progress, mutated: bool) {
    after == before.(bound := before.bound || mutated)
  }

  /** What an accepted bind leads to: a state to go on with if the name was free,
      an overwritten entry if it was not. */
  ghost predicate BindLeadsTo(run: Run, after: Content) {
    if Occupied(run) then after == Overwritten(run) && after != run.added && after != run.goal
    else after == run.added || after == run.goal
  }

  lemma AcceptedBind(run: Run, world: World, p: Progress, v: View, after: Content)
    requires Planned(run) && Kept(run, world, p, v) && run.desired !in run.baseline.bindings
    requires BindContent(run.baseline, after, run.desired)
    ensures BindLeadsTo(run, after)
  {
    assert Plan(run);
    StartFacts(run, world, p, v);
    if Occupied(run) {
      OverwritingBind(run, after);
    } else {
      AcceptedBindRecognised(run.baseline, run.desired, run.current, after);
    }
  }

  method RequestBind(session: Session, template: string, desired: Binding) returns (accepted: bool)
    requires template == session.run.name && ReadyToBind(session)
    requires BindingSendable(desired) && desired.Logical() == session.run.desired
    modifies session`log, session`watch, session.device
    ensures |session.log| == |old(session.log)| + 1
    ensures Forward(session) && OnlyBound(old(session.watch.progress), session.watch.progress, true)
    ensures session.watch.failures >= old(session.watch.failures) && session.watch.unbound == old(session.watch.unbound)
    ensures session.watch.view.settled.None?
    ensures session.sole && accepted ==> BindLeadsTo(session.run, session.Actual())
    ensures session.watch.failures == old(session.watch.failures) ==> accepted
  {
    accepted := session.BindCertificate(template, desired);
    if session.sole && accepted {
      AcceptedBind(session.run, session.device.world, session.watch.progress, session.watch.view, session.Actual());
    }
  }

  /** How a bind of an occupied name ends. */
  ghost predicate Clash(session: Session, fault: Fault)
    reads session, session.device
  {
    && session.Actual() == Overwritten(session.run)
    && fault == Conflict(PostBind, RevisionOf(session.run.added), RevisionOf(Overwritten(session.run)))
  }

  /** A failure of the binding phase: a mismatch before anything was sent, or one
      of the outcomes of the bind. */
  ghost predicate BindingFault(session: Session, fault: Fault, accepted: bool, mutated: bool)
    reads session
  {
    if mutated then
      && session.watch.view.read == session.watch.view.settled
      && BindFaultMeans(session.run, accepted, session.watch.view.settled, fault)
      && (fault == CallFailed ==> session.watch.failures > 0)
    else
      || (fault == CallFailed && session.watch.failures > 0)
      || Diverges(session, fault, PreBind, session.run.baseline)
      || Diverges(session, fault, PostBind, session.run.baseline)
  }

  method SendBind(session: Session, template: string, baseline: ClientTemplate, desired: Binding,
      current: Option<Binding>)
    returns (r: Placement, accepted: bool)
    requires template == session.run.name && ReadyToBind(session) && BindingSendable(desired)
    requires Situation(session.run, baseline, desired, current) && !HasBinding(baseline.certificates, desired)
    modifies session`log, session`watch, session.device
    ensures |session.log| == |old(session.log)| + 2
    ensures session.Valid() && OnlyBound(old(session.watch.progress), session.watch.progress, true)
    ensures session.watch.failures >= old(session.watch.failures) && session.watch.unbound == old(session.watch.unbound)
    ensures r.Placed? ==> AfterBind(session, r.expected, r.implicitly)
    ensures r.Unplaced? ==> BindingFault(session, r.fault, accepted, true)
    ensures session.sole && session.watch.failures == old(session.watch.failures) ==>
      if Occupied(session.run) then r.Unplaced? && Clash(session, r.fault) else r.Placed? && accepted
  {
    accepted := RequestBind(session, template, desired);
    var read := ReadBack(session, template);
    r := InterpretBind(session.run, baseline, desired, current, accepted, read);
  }

  /** Before the binding phase. */
  ghost predicate Prepared(session: Session, baseline: ClientTemplate, desired: Binding, current: Option<Binding>)
    reads session, session.device
  {
    && Forward(session) && !session.watch.progress.bound && !session.watch.unbound
    && session.watch.view.settled.None?
    && Situation(session.run, baseline, desired, current) && BindingSendable(desired)
    && MaterialReady(session.run, session.watch.progress, session.watch.view)
    && (session.sole ==> session.Actual() == session.run.baseline)
  }

  /** The desired entry is bound already: the baseline must still stand. */
  method ConfirmBound(session: Session, template: string, baseline: ClientTemplate, baselineRevision: TemplateRevision,
      desired: Binding)
    returns (r: Placement)
    requires template == session.run.name && Forward(session) && !session.watch.unbound && !session.watch.progress.bound
    requires Shows(session, session.run.baseline)
    requires ContentOf(baseline) == session.run.baseline && desired.Logical() == session.run.desired
    requires HasBinding(baseline.certificates, desired) && baselineRevision == RevisionOf(session.run.baseline)
    modifies session`log, session`watch, session.device
    ensures |session.log| == |old(session.log)| + 1
    ensures session.Valid() && session.watch.progress == old(session.watch.progress)
    ensures session.watch.failures >= old(session.watch.failures) && session.watch.unbound == old(session.watch.unbound)
    ensures session.sole ==> session.device.world == old(session.device.world)
    ensures r.Placed? ==> AfterBind(session, r.expected, r.implicitly)
    ensures r.Unplaced? ==> BindingFault(session, r.fault, false, false)
    ensures session.sole && session.watch.failures == old(session.watch.failures) ==> r.Placed?
  {
    RestAvoidsReserved(baseline);
    AlreadyAdded(session.run, baseline, desired);
    var checked := RequireTemplateRevision(session, template, session.run.baseline, baselineRevision, PostBind);
    r := if checked.Refused? then Unplaced(checked.fault) else Placed(checked.template, false);
  }

  /** Requires the baseline, binds the desired entry unless it is bound, and
      settles on the template to continue with. */
  method BindDesired(session: Session, template: string, baseline: ClientTemplate, baselineRevision: TemplateRevision,
      desired: Binding, current: Option<Binding>)
    returns (r: Placement, accepted: bool, mutated: bool)
    requires template == session.run.name && Prepared(session, baseline, desired, current)
    requires baselineRevision == RevisionOf(session.run.baseline)
    modifies session`log, session`watch, session.device
    ensures r.Placed? ==> |session.log| == |old(session.log)| + (if mutated then 3 else 2)
    ensures session.Valid() && OnlyBound(old(session.watch.progress), session.watch.progress, mutated)
    ensures session.watch.failures >= old(session.watch.failures) && session.watch.unbound == old(session.watch.unbound)
    ensures mutated ==> !HasBinding(baseline.certificates, desired)
    ensures accepted ==> mutated
    ensures r.Placed? ==> AfterBind(session, r.expected, r.implicitly)
    ensures r.Placed? ==> (mutated <==> !HasBinding(baseline.certificates, desired))
    ensures r.Unplaced? ==> BindingFault(session, r.fault, accepted, mutated)
    ensures session.sole && !mutated ==> session.Actual() == session.run.baseline
    ensures session.sole && session.watch.failures == old(session.watch.failures) ==>
      if Occupied(session.run) then r.Unplaced? && mutated && Clash(session, r.fault) else r.Placed?
    ensures session.sole && r.Unplaced? && !mutated ==> session.watch.failures > old(session.watch.failures)
  {
    RestAvoidsReserved(baseline);
    HasBindingMember(baseline.certificates, desired);
    accepted, mutated := false, false;
    var checked := RequireTemplateRevision(session, template, session.run.baseline, baselineRevision, PreBind);
    if checked.Refused? {
      return Unplaced(checked.fault), false, false;
    }
    if !HasBinding(baseline.certificates, desired) {
      r, accepted := SendBind(session, template, baseline, desired, current);
      mutated := true;
    } else {
      r := ConfirmBound(session, template, baseline, baselineRevision, desired);
    }
  }

  lemma AlreadyAdded(run: Run, baseline: ClientTemplate, desired: Binding)
    requires Planned(run) && ContentOf(baseline) == run.baseline && desired.Logical() == run.desired
    requires HasBinding(baseline.certificates, desired)
    ensures run.added == run.baseline && run.desired in run.baseline.bindings
  {
    assert Plan(run);
    HasBindingMember(baseline.certificates, desired);
  }

  // ---- removing the old entry ----

  datatype Removal = Cleared(expected: ClientTemplate) | Blocked(fault: Fault)

  /** After an explicit addition the old name is still bound; with unique names
      it is bound as it was. */
  lemma OldStillThere(run: Run, expected: ClientTemplate, old': Binding)
    requires Plan(run) && Replaces(run.current, run.desired) && run.current == Some(old'.Logical())
    requires old'.Logical() in run.baseline.bindings && ContentOf(expected) == run.added
    ensures var found := FindBinding(expected.certificates, old'.certificate);
            found.Some? && (Keyed(run.baseline.bindings) ==> SameBinding(found.value, old'))
  {
    FoundHolds(expected, old'.certificate);
    var found := FindBinding(expected.certificates, old'.certificate);
    EntriesMember(expected.certificates, found.value.Logical());
  }

  /** Once the goal is reached the old name is gone. */
  lemma OldGone(run: Run, expected: ClientTemplate)
    requires Plan(run) && Replaces(run.current, run.desired) && ContentOf(expected) == run.goal
    ensures FindBinding(expected.certificates, run.current.value.certificate).None?
  {
    FoundHolds(expected, run.current.value.certificate);
  }

  ghost predicate AfterRemoval(session: Session, expected: ClientTemplate)
    reads session, session.device
  {
    && Forward(session) && Shows(session, session.run.goal)
    && expected.name == session.run.name && ContentOf(expected) == session.run.goal
  }

  /** A failure while removing the old entry. */
  ghost predicate RemovalFault(session: Session, fault: Fault)
    reads session
  {
    || (fault == CallFailed && CallLost(session.run, session.watch))
    || Diverges(session, fault, PreUnbind, session.run.added)
    || Diverges(session, fault, PostUnbind, session.run.goal)
    || (!Keyed(session.run.baseline.bindings) && session.watch.view.settled == Some(session.run.added)
        && fault == Conflict(OldBinding, RevisionOf(session.run.added), RevisionOf(session.run.added)))
  }

  /** The old name could not be sent, and the appliance has not replaced the entry by
      itself: both are bound. */
  ghost predicate Unremoved(session: Session, fault: Fault)
    reads session, session.device
  {
    && !Removable(session.run) && fault == CallFailed
    && session.Actual() == session.run.added != session.run.goal
  }

  lemma AddedIsNotGoal(run: Run)
    requires Planned(run) && Replaces(run.current, run.desired) && run.current.value in run.baseline.bindings
    ensures run.added != run.goal
  {
    assert Plan(run);
    GoalEntries(run.baseline, run.desired, run.current, run.current.value);
    assert run.current.value in run.added.bindings;
  }

  method SendUnbind(session: Session, template: string, certificate: string) returns (ok: bool)
    requires template == session.run.name && Forward(session) && Shows(session, session.run.added)
    requires Replaces(session.run.current, session.run.desired) && session.run.current.value.certificate == certificate
    modifies session`log, session`watch, session.device
    ensures ok ==> |session.log| == |old(session.log)| + 1
    ensures session.Valid() && session.watch.progress == old(session.watch.progress)
    ensures session.watch.failures >= old(session.watch.failures)
    ensures !session.watch.diverged
    ensures ok ==> session.watch.unbound && session.watch.view.settled.None?
    ensures session.sole && ok ==> session.Actual() == Removed(session.run.added, certificate)
    ensures ValidFileName(certificate) && session.watch.failures == old(session.watch.failures) ==> ok
    ensures !ValidFileName(certificate) ==> !ok && (session.sole ==> session.Actual() == session.run.added)
  {
    ok := session.UnbindCertificate(template, certificate);
  }

  /** Requires the state with both entries and asks to remove the old one. */
  method RequestUnbind(session: Session, template: string, expected: ClientTemplate, certificate: string)
    returns (fault: Option<Fault>)
    requires template == session.run.name && AfterBind(session, expected, false)
    requires Replaces(session.run.current, session.run.desired) && session.run.current.value.certificate == certificate
    modifies session`log, session`watch, session.device
    ensures fault.None? ==> |session.log| == |old(session.log)| + 2
    ensures session.Valid() && session.watch.progress == old(session.watch.progress)
    ensures session.watch.failures >= old(session.watch.failures)
    ensures fault.None? ==> Forward(session) && session.watch.unbound && session.watch.view.settled.None?
    ensures session.sole && fault.None? ==> session.Actual() == session.run.goal
    ensures fault.Some? ==> RemovalFault(session, fault.value)
    ensures session.sole && session.watch.failures == old(session.watch.failures) ==>
      fault == if ValidFileName(certificate) then None else Some(CallFailed)
    ensures session.sole && !ValidFileName(certificate) ==> fault.Some? && session.Actual() == session.run.added
  {
    var revision := ComputeRevision(expected);
    RestAvoidsReserved(expected);
    var checked := RequireTemplateRevision(session, template, session.run.added, revision, PreUnbind);
    if checked.Refused? {
      return Some(checked.fault);
    }
    assert Plan(session.run);
    var ok := SendUnbind(session, template, certificate);
    fault := if ok then None else Some(CallFailed);
  }

  /** What is to remain, and its revision: those of the goal. */
  method Remainder(ghost run: Run, expected: ClientTemplate, certificate: string)
    returns (remaining: ClientTemplate, revision: TemplateRevision)
    requires Planned(run) && Replaces(run.current, run.desired) && run.current.value.certificate == certificate
    requires ContentOf(expected) == run.added
    ensures remaining.name == expected.name && ContentOf(remaining) == run.goal
    ensures Reserved(run.goal) && revision == RevisionOf(run.goal)
  {
    assert Plan(run);
    WithoutCertificateContent(expected, certificate);
    remaining := TemplateWithoutCertificate(expected, certificate);
    RestAvoidsReserved(remaining);
    revision := ComputeRevision(remaining);
  }

  /** Removes the old entry and requires the goal. */
  method UnbindCurrent(session: Session, template: string, expected: ClientTemplate, certificate: string)
    returns (r: Removal)
    requires template == session.run.name && AfterBind(session, expected, false)
    requires Replaces(session.run.current, session.run.desired) && session.run.current.value.certificate == certificate
    modifies session`log, session`watch, session.device
    ensures r.Cleared? ==> |session.log| == |old(session.log)| + 3
    ensures session.Valid() && session.watch.progress == old(session.watch.progress)
    ensures session.watch.failures >= old(session.watch.failures)
    ensures r.Cleared? ==> AfterRemoval(session, r.expected)
    ensures r.Blocked? ==> RemovalFault(session, r.fault)
    ensures session.sole && session.watch.failures == old(session.watch.failures) ==>
      if ValidFileName(certificate) then r.Cleared? else r == Blocked(CallFailed)
    ensures session.sole && !ValidFileName(certificate) ==> r.Blocked? && session.Actual() == session.run.added
  {
    var fault := RequestUnbind(session, template, expected, certificate);
    if fault.Some? {
      return Blocked(fault.value);
    }
    var remaining, revision := Remainder(session.run, expected, certificate);
    var checked := RequireTemplateRevision(session, template, session.run.goal, revision, PostUnbind);
    r := if checked.Refused? then Blocked(checked.fault) else Cleared(remaining);
  }

  /** Removes the old entry unless the appliance replaced it. That it is missing
      without a replacement cannot be observed; that it changed cannot be
      observed with unique names. A sole writer with an old name that cannot be sent
      gets through exactly if the appliance replaced the entry by itself. */
  method RemoveCurrent(session: Session, template: string, expected: ClientTemplate, current: Binding, implicitly: bool)
    returns (r: Removal)
    requires template == session.run.name && AfterBind(session, expected, implicitly)
    requires Replaces(session.run.current, session.run.desired) && session.run.current == Some(current.Logical())
    requires current.Logical() in session.run.baseline.bindings
    modifies session`log, session`watch, session.device
    ensures session.Valid() && session.watch.progress == old(session.watch.progress)
    ensures session.watch.failures >= old(session.watch.failures)
    ensures r.Cleared? ==> AfterRemoval(session, r.expected)
    ensures r.Blocked? ==> RemovalFault(session, r.fault)
    ensures session.sole && session.watch.failures == old(session.watch.failures) ==>
      r.Cleared? || Unremoved(session, r.fault)
    ensures session.sole && !Removable(session.run) ==> (r.Cleared? <==> session.Actual() == session.run.goal)
  {
    assert Plan(session.run);
    AddedIsNotGoal(session.run);
    if session.sole {
      StartFacts(session.run, session.device.world, session.watch.progress, session.watch.view);
    }
    if implicitly {
      OldGone(session.run, expected);
    } else {
      OldStillThere(session.run, expected, current);
    }
    var actual := FindBinding(expected.certificates, current.certificate);
    if actual.Some? && !SameBinding(actual.value, current) {
      var revision := ComputeRevision(expected);
      return Blocked(Conflict(OldBinding, revision, revision));
    }
    if actual.Some? {
      r := UnbindCurrent(session, template, expected, current.certificate);
    } else if !implicitly {
      assert false;  // the conflict that would be reported here cannot arise
    } else {
      r := Cleared(expected);
    }
  }
}
