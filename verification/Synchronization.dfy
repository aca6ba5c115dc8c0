/** The public operation: validation, names, first read and selection, then the
    synchronization itself; and the repetition that changes nothing. */
module Synchronization {
  import opened Wrappers
  import opened Templates
  import opened Revision
  import opened Contents
  import opened Appliance
  import opened Monitor
  import opened Safety
  import opened Names
  import opened Sessions
  import opened Restore
  import opened Targets
  import opened Checks
  import opened Uploads
  import opened Rotation
  import opened Cleanup
  import opened Sync
  import Traces

  const BLANK := SyncResult(Started, false, false, false, false, [], false, false, None, None, None)

  /** The configuration a sole-writer claim starts from: names are keys, and
      every file that is named exists. */
  ghost predicate Sane(world: World) {
    WellFormedConfig(world.running) && Resolved(world.running, world.certificates, world.keys)
  }

  ghost function RunFor(target: Target, options: Options, mode: Mode, template: ClientTemplate, desired: Binding,
      current: Option<Binding>, world: World): Run {
    var baseline := ContentOf(template);
    Run(target.template, baseline, desired.Logical(), Plain(current),
        Added(baseline, desired.Logical()), Goal(baseline, desired.Logical(), Plain(current)),
        options.noWriteMemory, options.cleanupOld, world,
        !mode.lossyUpload, !mode.lossySave,
        (options.noWriteMemory ==> !options.cleanupOld) && (options.noWriteMemory || !mode.lossySave)
        && Resolved(world.saved, world.certificates, world.keys))
  }

  lemma RunPlanned(target: Target, options: Options, mode: Mode, template: ClientTemplate, desired: Binding,
      current: Option<Binding>, world: World)
    ensures Planned(RunFor(target, options, mode, template, desired, current, world))
  {
    assert Plan(RunFor(target, options, mode, template, desired, current, world));
  }

  /** The facts about the start of a run that a sole writer can rely on. */
  lemma StartHolds(run: Run, template: ClientTemplate, named: string, desired: Binding, current: Option<Binding>)
    requires Planned(run) && Sane(run.start) && run.name in run.start.running.clients
    requires Presents(template, run.name, run.start.running.clients[run.name]) && run.baseline == ContentOf(template)
    requires !SelectCurrentBinding(template.certificates, named, desired).Unselectable?
    requires current == Chosen(SelectCurrentBinding(template.certificates, named, desired))
      && run.current == Plain(current)
    requires run.desired == desired.Logical() && desired.certificate != "" && desired.key != ""
    requires run.guarded ==> SavedSafely(run) && Resolved(run.start.saved, run.start.certificates, run.start.keys)
    ensures Start(run)
  {
    SelectionSound(template.certificates, named, desired);
    SelectedIsEntry(template, run.start.running.clients[run.name].entries, current);
  }

  /** The selected binding is an entry of the appliance, and a sole entry is it. */
  lemma SelectedIsEntry(template: ClientTemplate, entries: seq<Entry>, current: Option<Binding>)
    requires multiset(Entries(template.certificates)) == multiset(entries)
    requires current.Some? ==> current.value in template.certificates
    requires |template.certificates| == 1 ==> current == Some(template.certificates[0])
    ensures current.Some? ==> current.value.Logical() in entries
    ensures |entries| == 1 ==> Plain(current) == Some(entries[0])
  {
    assert |multiset(Entries(template.certificates))| == |template.certificates| && |multiset(entries)| == |entries|;
    if current.Some? {
      EntriesMember(template.certificates, current.value.Logical());
      assert current.value.Logical() in multiset(entries);
    }
  }

  lemma InitialSole(run: Run)
    requires Start(run)
    ensures Sole(run, run.start, NOTHING_SENT, NOTHING_SEEN)
  {
    assert run.start.running.clients[run.name].WellFormed();
    var slot := run.start.running.clients[run.name];
    assert run.start.running.clients == run.start.running.clients[run.name := slot];
    assert SafeWorld(run, run.start);
  }

  function DesiredBinding(names: ManagedNames, shared: bool): Binding {
    Binding(names.name, names.name, names.chainName, shared, "", "")
  }

  /** Managed names can always be sent. */
  lemma DesiredManaged(target: Target, bundle: Bundle, options: Options)
    requires WellFormedDigest(bundle.checksum)
    requires NamesForTarget(bundle.checksum, bundle.chain != [], options.namePrefix, target.template).Some?
    ensures var names := NamesForTarget(bundle.checksum, bundle.chain != [], options.namePrefix, target.template).value;
            var desired := DesiredBinding(names, options.shared);
            BindingSendable(desired) && Managed(desired.Logical(), bundle)
  {
    ManagedNamesValid(bundle.checksum, bundle.chain != [],
      if TrimSpace(options.namePrefix) == "" then target.template else TrimSpace(options.namePrefix));
  }

  /** The template that was just read, and what was selected in it. */
  ghost predicate Read(world: World, target: Target, baseline: ClientTemplate, desired: Binding,
      current: Option<Binding>) {
    var selection := SelectCurrentBinding(baseline.certificates, target.currentCertificate, desired);
    && target.template in world.running.clients
    && Presents(baseline, target.template, world.running.clients[target.template])
    && !selection.Unselectable? && current == Chosen(selection)
  }

  /** The run works with the values that were read and selected. */
  lemma ReadSituates(run: Run, world: World, target: Target, baseline: ClientTemplate, desired: Binding,
      current: Option<Binding>)
    requires Read(world, target, baseline, desired, current) && BindingSendable(desired)
    requires Planned(run) && run.name == target.template && run.baseline == ContentOf(baseline)
    requires run.desired == desired.Logical() && run.current == Plain(current)
    ensures Situation(run, baseline, desired, current) && Given(run, baseline, desired, target.currentCertificate)
  {
    SelectionSound(baseline.certificates, target.currentCertificate, desired);
    if FindBinding(baseline.certificates, desired.certificate).None? {
      RestoresTheSelected(baseline.certificates, target.currentCertificate, desired);
    }
  }

  /** Starts the journal at the state that was just read. */
  ghost method BeginRun(session: Session, target: Target, options: Options, bundle: Bundle, baseline: ClientTemplate,
      desired: Binding, current: Option<Binding>)
    requires ValidTemplateName(target.template) && Read(session.device.world, target, baseline, desired, current)
    requires BindingSendable(desired) && Managed(desired.Logical(), bundle)
    modifies session
    ensures Fresh(session, options, bundle, baseline, desired, current, target.currentCertificate)
    ensures session.watch.failures == 0
    ensures session.sole == (!session.device.mode.rival && Sane(session.device.world))
    ensures session.run ==
      RunFor(target, options, session.device.mode, baseline, desired, current, session.device.world)
  {
    var run := RunFor(target, options, session.device.mode, baseline, desired, current, session.device.world);
    var sole := !session.device.mode.rival && Sane(session.device.world);
    RunPlanned(target, options, session.device.mode, baseline, desired, current, session.device.world);
    ReadSituates(run, session.device.world, target, baseline, desired, current);
    if sole {
      StartHolds(run, baseline, target.currentCertificate, desired, current);
      InitialSole(run);
    }
    session.Begin(run, sole);
  }

  /** With a sole writer: after every call of the run, every reference is resolved,
      service continues, and no file of the start has been overwritten. */
  ghost predicate AlwaysSafe(session: Session)
    reads session
  {
    session.sole ==>
      && Traces.AlwaysResolved(session.run, session.log) && Traces.AlwaysServing(session.run, session.log)
      && Traces.NeverOverwrites(session.run, session.log)
  }

  lemma JournalSafe(session: Session)
    requires session.Valid()
    ensures AlwaysSafe(session)
  {
    if session.sole {
      Traces.ReferencesAlwaysResolved(session.run, session.log, session.watch);
      Traces.ServiceContinues(session.run, session.log, session.watch);
      Traces.UploadsAreNew(session.run, session.log, session.watch);
    }
  }

  /** With saving off and the configuration saved that was running: the saved
      configuration is resolved exactly if the files of the old entry are still
      there, however the call ends, and after a completed call exactly if the
      cleanup deleted nothing. */
  ghost predicate UnsavedCleanup(session: Session, result: SyncResult, fault: Option<Fault>)
    reads session, session.device
  {
    var run, world := session.run, session.device.world;
    session.sole && run.noWrite && run.start.saved == run.start.running ==>
      && (Resolved(world.saved, world.certificates, world.keys) <==> OldStored(run, world))
      && (fault.None? ==> (OldStored(run, world) <==> result.deletedOld == []))
  }

  /** A completed run has kept the files of the old entry exactly if it reports no
      deletion. */
  lemma DeletedIsMissing(session: Session, options: Options, result: SyncResult)
    requires session.Valid() && session.sole && Succeeds(session, options, result)
    ensures OldStored(session.run, session.device.world) <==> result.deletedOld == []
  {
    if result.deletedOld == [] {
      OldStillStored(session.run, session.device.world, session.watch.progress, session.watch.view);
    } else {
      DeletionTakesOld(session, result.deletedOld);
    }
  }

  lemma UnsavedCleanupDangles(session: Session, options: Options, result: SyncResult, fault: Option<Fault>)
    requires session.Valid() && (fault.None? ==> Succeeds(session, options, result))
    ensures UnsavedCleanup(session, result, fault)
  {
    var run, world := session.run, session.device.world;
    if session.sole && run.noWrite && run.start.saved == run.start.running {
      UnsavedResolvedExactly(run, world, session.watch.progress, session.watch.view);
      if fault.None? {
        DeletedIsMissing(session, options, result);
      }
    }
  }

  method BeginAndSync(session: Session, target: Target, options: Options, bundle: Bundle, baseline: ClientTemplate,
      baselineRevision: TemplateRevision, desired: Binding, current: Option<Binding>, before: SyncResult)
    returns (result: SyncResult, fault: Option<Fault>)
    requires ValidTemplateName(target.template) && Read(session.device.world, target, baseline, desired, current)
    requires BindingSendable(desired) && Managed(desired.Logical(), bundle)
    requires baselineRevision == RevisionOf(ContentOf(baseline)) && Blank(before)
    modifies session, session.device
    ensures session.Valid() && session.sole == (!session.device.mode.rival && Sane(old(session.device.world)))
    ensures session.run ==
      RunFor(target, options, session.device.mode, baseline, desired, current, old(session.device.world))
    ensures SameHeader(before, result)
    ensures fault.None? ==> Succeeds(session, options, result)
    ensures fault.Some? ==> FailsHonestly(session, result, fault.value)
    ensures Managed(session.run.desired, bundle) && Decided(session, bundle, fault)
    ensures AlwaysSafe(session) && UnsavedCleanup(session, result, fault)
  {
    BeginRun(session, target, options, bundle, baseline, desired, current);
    result, fault := SyncSelected(session, target.template, options, bundle, baseline, baselineRevision, desired,
                                  current, target.currentCertificate, before);
    JournalSafe(session);
    UnsavedCleanupDangles(session, options, result, fault);
  }

  /** The slot to replace, in terms of the baseline alone: the named certificate,
      else the desired entry itself, else the only entry there is. */
  ghost predicate SelectedRightly(baseline: Content, desired: Entry, current: Option<Entry>, named: string) {
    && (current.Some? ==> current.value in baseline.bindings)
    && (named != "" ==> current.Some? && current.value.certificate == named)
    && (named == "" && desired in baseline.bindings && Keyed(baseline.bindings) ==> current == Some(desired))
    && (named == "" && desired !in baseline.bindings ==>
          if current.None? then |baseline.bindings| == 0 else |baseline.bindings| == 1)
  }

  lemma SelectionRight(template: ClientTemplate, named: string, desired: Binding)
    requires !SelectCurrentBinding(template.certificates, named, desired).Unselectable?
    ensures SelectedRightly(ContentOf(template), desired.Logical(),
                            Plain(Chosen(SelectCurrentBinding(template.certificates, named, desired))), named)
  {
    var bindings, bag := template.certificates, ContentOf(template).bindings;
    var selection := SelectCurrentBinding(bindings, named, desired);
    SelectionSound(bindings, named, desired);
    assert |bag| == |bindings|;
    if selection.Found? {
      EntriesMember(bindings, selection.binding.Logical());
    }
    if named == "" {
      FoundIsDesired(template, desired);
    }
  }

  lemma FoundIsDesired(template: ClientTemplate, desired: Binding)
    ensures var found := FindBinding(template.certificates, desired.certificate);
            && (found.Some? && SameBinding(found.value, desired) ==> desired.Logical() in ContentOf(template).bindings)
            && (desired.Logical() in ContentOf(template).bindings && Keyed(ContentOf(template).bindings) ==>
                  found.Some? && SameBinding(found.value, desired))
  {
    var found := FindBinding(template.certificates, desired.certificate);
    FoundHolds(template, desired.certificate);
    if found.Some? {
      EntriesMember(template.certificates, found.value.Logical());
    }
  }

  /** The run that a call performs. */
  ghost predicate Performs(run: Run, target: Target, bundle: Bundle, options: Options, result: SyncResult) {
    var names := NamesForTarget(bundle.checksum, bundle.chain != [], options.namePrefix, target.template);
    && run.name == target.template
    && names.Some? && run.desired == DesiredBinding(names.value, options.shared).Logical()
    && run.current == Plain(result.previous)
    && SelectedRightly(run.baseline, run.desired, run.current, target.currentCertificate)
    && run.goal == Goal(run.baseline, run.desired, run.current)
    && run.noWrite == options.noWriteMemory && run.cleanup == options.cleanupOld
  }

  /** Where a call ends that never reaches the appliance state: nothing was sent
      but reads. */
  datatype Opening =
    | Closed(fault: Fault)
    | Open(baseline: ClientTemplate, baselineRevision: TemplateRevision, desired: Binding, current: Option<Binding>)

  /** Why a call does not start, given the template it read, if it got that far. */
  ghost predicate ClosedRightly(fault: Fault, target: Target, bundle: Bundle, options: Options,
      seen: Option<ClientTemplate>) {
    var names := NamesForTarget(bundle.checksum, bundle.chain != [], options.namePrefix, target.template);
    match fault
    case Invalid => !bundle.valid || !ValidTarget(target)
    case Unsupported => seen.None?
    case Naming => names.None?
    case CallFailed => seen.None?
    case Conflict(at, expected, actual) =>
      && at == InitialCompare && options.expectedRevision == Some(expected) && expected != actual
      && seen.Some? && actual == RevisionOf(ContentOf(seen.value))
    case Unselectable =>
      && seen.Some? && names.Some?
      && SelectCurrentBinding(seen.value.certificates, target.currentCertificate,
        DesiredBinding(names.value, options.shared)).Unselectable?
    case _ => false
  }

  /** What a call starts with, and reports. */
  ghost predicate Opened(target: Target, bundle: Bundle, options: Options, opening: Opening, result: SyncResult)
    requires opening.Open?
  {
    var names := NamesForTarget(bundle.checksum, bundle.chain != [], options.namePrefix, target.template);
    && names.Some? && opening.desired == DesiredBinding(names.value, options.shared)
    && result.previous == opening.current && result.initialRevision == Some(opening.baselineRevision)
    && (options.expectedRevision.Some? ==> options.expectedRevision == Some(opening.baselineRevision))
  }

  /** Validation, compatibility, names, first read, initial comparison, selection. */
  method OpenRun(session: Session, target: Target, bundle: Bundle, options: Options)
    returns (opening: Opening, result: SyncResult, ghost seen: Option<ClientTemplate>)
    requires bundle.valid ==> WellFormedDigest(bundle.checksum)
    modifies session.device
    ensures !session.device.mode.rival ==> session.device.world == old(session.device.world)
    ensures !bundle.valid || !ValidTarget(target) ==> opening == Closed(Invalid)
    ensures opening.Closed? ==> ClosedRightly(opening.fault, target, bundle, options, seen)
    ensures seen.Some? ==>
      && target.template in session.device.world.running.clients
      && Presents(seen.value, target.template, session.device.world.running.clients[target.template])
    ensures opening.Open? ==> seen == Some(opening.baseline) && session.device.calls == old(session.device.calls) + 2
    ensures Blank(result)
    ensures opening.Open? ==>
      && ValidTemplateName(target.template)
      && Read(session.device.world, target, opening.baseline, opening.desired, opening.current)
      && BindingSendable(opening.desired) && Managed(opening.desired.Logical(), bundle)
      && opening.baselineRevision == RevisionOf(ContentOf(opening.baseline))
    ensures opening.Open? ==> Opened(target, bundle, options, opening, result)
  {
    result, seen := BLANK, None;
    if !bundle.valid || !ValidTarget(target) {
      return Closed(Invalid), result, seen;
    }
    var ok := session.device.CheckVersion();
    if !ok {
      return Closed(Unsupported), result, seen;
    }
    result := result.(stage := CompatibilityVerified);
    var names := NamesForTarget(bundle.checksum, bundle.chain != [], options.namePrefix, target.template);
    if names.None? {
      return Closed(Naming), result, seen;
    }
    DesiredManaged(target, bundle, options);
    var desired := DesiredBinding(names.value, options.shared);
    var read := session.device.GetTemplate(target.template);
    if read.None? {
      return Closed(CallFailed), result, seen;
    }
    seen := read;
    var revision := ComputeRevision(read.value);
    result := result.(initialRevision := Some(revision), finalRevision := Some(revision), stage := StateInspected);
    if options.expectedRevision.Some? && options.expectedRevision != Some(revision) {
      return Closed(Conflict(InitialCompare, options.expectedRevision.value, revision)), result, seen;
    }
    var selection := SelectCurrentBinding(read.value.certificates, target.currentCertificate, desired);
    if selection.Unselectable? {
      return Closed(Fault.Unselectable), result, seen;
    }
    result := result.(previous := Chosen(selection));
    opening := Open(read.value, revision, desired, Chosen(selection));
  }

  /** The run that is begun with what was read and selected is the one asked for. */
  lemma StartPerforms(mode: Mode, target: Target, bundle: Bundle, options: Options, opening: Opening,
      result: SyncResult, world: World)
    requires opening.Open? && Read(world, target, opening.baseline, opening.desired, opening.current)
    requires Opened(target, bundle, options, opening, result)
    ensures forall after: SyncResult :: SameHeader(result, after) ==>
      Performs(RunFor(target, options, mode, opening.baseline, opening.desired, opening.current, world),
               target, bundle, options, after)
  {
    SelectionRight(opening.baseline, target.currentCertificate, opening.desired);
  }

  /** One synchronization. Once started, its journal is valid; without a fault the
      template is the baseline with the desired entry added and the selected one
      removed; with one, the failure says what is left. A call that does not start
      has sent nothing but reads. */
  method SyncCertificate(session: Session, target: Target, bundle: Bundle, options: Options)
    returns (result: SyncResult, fault: Option<Fault>, ghost started: bool, ghost seen: Option<ClientTemplate>)
    requires bundle.valid ==> WellFormedDigest(bundle.checksum)
    modifies session, session.device
    ensures !bundle.valid || !ValidTarget(target) ==> fault == Some(Invalid)
    ensures !started ==> fault.Some? && ClosedRightly(fault.value, target, bundle, options, seen)
    ensures !started && !session.device.mode.rival ==> session.device.world == old(session.device.world)
    ensures !started && seen.Some? ==>
      && target.template in session.device.world.running.clients
      && ContentOf(seen.value) == SlotContent(target.template, session.device.world.running.clients[target.template])
    ensures started ==> session.Valid() && Performs(session.run, target, bundle, options, result)
    ensures started ==> result.initialRevision == Some(RevisionOf(session.run.baseline))
    ensures started ==> session.sole == (!session.device.mode.rival && Sane(session.run.start))
    ensures started && !session.device.mode.rival ==> session.run.start == old(session.device.world)
    ensures started && fault.None? ==> Succeeds(session, options, result)
    ensures started && fault.Some? ==> FailsHonestly(session, result, fault.value)
    ensures started ==> Managed(session.run.desired, bundle) && Decided(session, bundle, fault)
    ensures started ==> AlwaysSafe(session)
    ensures started ==> UnsavedCleanup(session, result, fault)
  {
    started := false;
    var opening;
    opening, result, seen := OpenRun(session, target, bundle, options);
    if opening.Closed? {
      fault := Some(opening.fault);
      return;
    }
    started := true;
    StartPerforms(session.device.mode, target, bundle, options, opening, result, session.device.world);
    result, fault := BeginAndSync(session, target, options, bundle, opening.baseline, opening.baselineRevision,
                                  opening.desired, opening.current, result);
  }

  // ---- what a later run can rely on ----

  /** A run leaves the appliance as sane as it found it. */
  lemma SaneAfter(run: Run, world: World, p: Progress, v: View)
    requires Kept(run, world, p, v)
    ensures Sane(world) && run.name in world.running.clients && run.desired in run.goal.bindings
    ensures Keyed(SlotContent(run.name, world.running.clients[run.name]).bindings)
  {
    assert Sole(run, world, p, v);
    RunningWellFormed(run, world, p);
    UniqueKeyed(EntriesAt(run, world));
    assert Plan(run);
    GoalEntries(run.baseline, run.desired, run.current, run.desired);
  }

  /** The baseline of a run is what the appliance held when it started. */
  lemma BaselineIsStart(run: Run, world: World, p: Progress, v: View)
    requires Kept(run, world, p, v)
    ensures run.name in run.start.running.clients
    ensures run.baseline == SlotContent(run.name, run.start.running.clients[run.name])
  {
    assert Sole(run, world, p, v);
  }
}
