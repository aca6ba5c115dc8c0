/** Why permitted requests keep the appliance safe when nobody else writes.

    `Sole` relates the real state to what the monitor knows. Each lemma covers
    one kind of request; together they make `Sole` an invariant of every run. */
module Safety {
  import opened Wrappers
  import opened Templates
  import opened Revision
  import opened Contents
  import opened References
  import opened Appliance
  import opened Monitor

  /** The saved configuration can be kept resolved: replaced files are deleted only
      after a save, and a save that is tried and fails has no effect. */
  ghost predicate SavedSafely(run: Run) {
    (run.noWrite ==> !run.cleanup) && (run.noWrite || run.keepsSaved)
  }

  /** Facts about the start of a run. */
  ghost predicate Start(run: Run) {
    && Planned(run)
    && run.name in run.start.running.clients
    && run.baseline == SlotContent(run.name, run.start.running.clients[run.name])
    && (forall name :: name in run.start.running.clients ==> run.start.running.clients[name].WellFormed())
    && (forall name :: name in run.start.running.servers ==> run.start.running.servers[name].WellFormed())
    && Resolved(run.start.running, run.start.certificates, run.start.keys)
    && (run.guarded ==> SavedSafely(run) && Resolved(run.start.saved, run.start.certificates, run.start.keys))
    && var entries := EntriesAt(run, run.start);
       && (run.current.Some? ==> run.current.value in entries)
       && (|entries| == 1 ==> run.current == Some(entries[0]))
       && run.desired.certificate != "" && run.desired.key != ""
  }

  /** The state against what has been sent. */
  ghost predicate Files(run: Run, world: World, p: Progress) {
    && p.mineCertificates <= {run.desired.certificate, run.desired.chain} && "" !in p.mineCertificates
    && p.mineKeys <= {run.desired.key}
    && p.mineCertificates !! run.start.certificates && p.mineKeys !! run.start.keys
    && run.start.certificates <= world.certificates + OldCertificates(run)
    && run.start.keys <= world.keys + OldKeys(run)
    && (!p.cleaned ==> run.start.certificates <= world.certificates && run.start.keys <= world.keys)
    && (!p.deleted ==> p.mineCertificates <= world.certificates && p.mineKeys <= world.keys)
    && (run.exact ==> world.certificates <= run.start.certificates + p.mineCertificates
                      && world.keys <= run.start.keys + p.mineKeys)
    && (p.cleaned ==> p.deleted && (p.bound || run.desired in run.baseline.bindings)
                      && (p.save.Persisted? || (run.noWrite && p.save.Untried?)))
    && (run.noWrite ==> p.save.Untried?)
  }

  ghost predicate Bindings(run: Run, world: World, p: Progress)
    requires Frame(run, world)
  {
    var entries := EntriesAt(run, world);
    && (!p.bound ==> forall e :: e in entries ==> e in EntriesAt(run, run.start))
    && (p.rebound ==> !p.save.Untried? && run.current.Some? && run.current.value in entries)
  }

  ghost predicate SavedState(run: Run, world: World, p: Progress) {
    match p.save
    case Untried => world.saved == run.start.saved
    case Failed => run.keepsSaved ==> world.saved == run.start.saved
    case Persisted => world.saved == world.running
    case Restored => world.saved == world.running
  }

  ghost predicate Core(run: Run, world: World, p: Progress) {
    Start(run) && SafeWorld(run, world) && Files(run, world, p) && Bindings(run, world, p) && SavedState(run, world, p)
  }

  /** What was read is still true. */
  ghost predicate ViewTrue(run: Run, world: World, p: Progress, v: View)
    requires run.name in world.running.clients
  {
    && (v.read.Some? ==> v.read == v.settled)
    && (v.settled.Some? ==> v.settled.value == SlotContent(run.name, world.running.clients[run.name]))
    && (v.certificates.Some? ==> forall name :: name in v.certificates.value ==> name in world.certificates)
    && (v.keys.Some? ==> forall name :: name in v.keys.value ==> name in world.keys)
    && (v.certificates.Some? && !p.cleaned ==>
          forall name :: name in run.start.certificates ==> name == "" || name in v.certificates.value)
    && (v.keys.Some? && !p.cleaned ==>
          forall name :: name in run.start.keys ==> name == "" || name in v.keys.value)
  }

  ghost predicate Sole(run: Run, world: World, p: Progress, v: View) {
    Core(run, world, p) && ViewTrue(run, world, p, v)
  }

  /** The invariant in a form that is unfolded only where it is asked for. */
  ghost predicate Kept(run: Run, world: World, p: Progress, v: View) {
    forall w: World {:trigger Sole(run, w, p, v)} :: w == world ==> Sole(run, w, p, v)
  }

  // ---- reads ----

  lemma ReadTemplateTrue(run: Run, world: World, w: Watch, response: Option<ClientTemplate>)
    requires Kept(run, world, w.progress, w.view)
    requires response.Some? ==>
      && run.name in world.running.clients
      && ContentOf(response.value) == SlotContent(run.name, world.running.clients[run.name])
    ensures var w' := Next(run, w, ReadTemplate(run.name, response)); Kept(run, world, w'.progress, w'.view)
    ensures SafeWorld(run, world)
  {
    assert Sole(run, world, w.progress, w.view);
  }

  lemma ListCertificatesTrue(run: Run, world: World, p: Progress, v: View, names: Option<seq<string>>)
    requires run.name in world.running.clients && ViewTrue(run, world, p, v)
    requires names.Some? ==> PresentsFiles(names.value, world.certificates)
    requires !p.cleaned ==> run.start.certificates <= world.certificates
    ensures ViewTrue(run, world, p, NextView(v, ListedCertificates(names)))
  {
  }

  lemma ListKeysTrue(run: Run, world: World, p: Progress, v: View, names: Option<seq<string>>)
    requires run.name in world.running.clients && ViewTrue(run, world, p, v)
    requires names.Some? ==> PresentsFiles(names.value, world.keys)
    requires !p.cleaned ==> run.start.keys <= world.keys
    ensures ViewTrue(run, world, p, NextView(v, ListedKeys(names)))
  {
  }

  /** Reads that concern neither the template nor the inventories. */
  lemma OtherReadTrue(run: Run, world: World, p: Progress, v: View, event: Event)
    requires run.name in world.running.clients && ViewTrue(run, world, p, v)
    requires event.CheckedVersion? || event.ListedInfos? || event.ListedClients? || event.ListedServers?
    ensures ViewTrue(run, world, p, NextView(v, event))
  {
  }

  // ---- file additions ----

  lemma ResolvedMore(config: Config, certificates: set<string>, keys: set<string>, certificates': set<string>,
      keys': set<string>)
    requires Resolved(config, certificates, keys)
    requires certificates <= certificates' && keys <= keys'
    ensures Resolved(config, certificates', keys')
  {
    forall name | name in config.clients ensures SlotResolved(config.clients[name], certificates', keys') {
      assert SlotResolved(config.clients[name], certificates, keys);
    }
  }

  lemma MoreFilesSafe(run: Run, world: World, world': World)
    requires SafeWorld(run, world)
    requires world'.running == world.running && world'.saved == world.saved
    requires world.certificates <= world'.certificates && world.keys <= world'.keys
    ensures SafeWorld(run, world')
  {
    ResolvedMore(world.running, world.certificates, world.keys, world'.certificates, world'.keys);
    if run.guarded {
      ResolvedMore(world.saved, world.certificates, world.keys, world'.certificates, world'.keys);
    }
  }

  lemma UploadKeySafe(run: Run, world: World, world': World, p: Progress, v: View, name: string, ok: bool)
    requires Sole(run, world, p, v) && UploadKeyPermitted(run, p, v, name)
    requires world' == world || world' == world.(keys := world.keys + {name})
    requires ok ==> name in world'.keys
    requires !ok && run.exact ==> world' == world
    ensures Sole(run, world', NextProgress(run, p, UploadedKey(name, ok)), NextView(v, UploadedKey(name, ok)))
    ensures name !in run.start.keys
  {
    MoreFilesSafe(run, world, world');
  }

  lemma UploadCertificateSafe(run: Run, world: World, world': World, p: Progress, v: View, name: string, ok: bool)
    requires Sole(run, world, p, v) && UploadCertificatePermitted(run, p, v, name)
    requires world' == world || UploadCertificateEffect(world, world', name)
    requires ok ==> name in world'.certificates
    requires !ok && run.exact ==> world' == world
    ensures Sole(run, world', NextProgress(run, p, UploadedCertificate(name, ok)),
                 NextView(v, UploadedCertificate(name, ok)))
    ensures name !in run.start.certificates
  {
    MoreFilesSafe(run, world, world');
  }

  // ---- binding changes ----

  lemma SlotOfBag(entries: seq<Entry>, others: seq<Entry>, e: Entry)
    requires multiset(entries) == multiset(others)
    ensures e in entries <==> e in others
    ensures |entries| == |others|
  {
    assert e in entries <==> e in multiset(entries);
    assert e in others <==> e in multiset(others);
    assert |multiset(entries)| == |entries| && |multiset(others)| == |others|;
  }

  lemma {:induction false} DropUnique(entries: seq<Entry>, certificate: string)
    requires Unique(entries)
    ensures Unique(DropEntries(entries, certificate))
  {
    if entries != [] {
      DropUnique(entries[1..], certificate);
    }
  }

  /** A bind that overwrites by name keeps service, provided it adds the desired
      entry, or the current one while the desired one stays. */
  lemma OverwriteServes(baseline: seq<Entry>, desired: Entry, current: Option<Entry>, entries: seq<Entry>, entry: Entry)
    requires Unique(baseline) && Serving(baseline, desired, current, entries)
    requires entry == desired
      || (current == Some(entry) && entry in baseline && entry.certificate != desired.certificate)
    ensures Serving(baseline, desired, current, DropEntries(entries, entry.certificate) + [entry])
  {
    DropUnique(entries, entry.certificate);
  }

  /** Replacing the sole entry keeps service, because the sole entry is the
      selected one or the desired one. */
  lemma ReplaceServes(baseline: seq<Entry>, desired: Entry, current: Option<Entry>, entries: seq<Entry>, entry: Entry)
    requires Unique(baseline) && Serving(baseline, desired, current, entries) && |entries| == 1
    requires (entry == desired && (Some(entries[0]) == current || entries[0].certificate == desired.certificate))
          || (current == Some(entry) && entry in baseline && desired in entries
              && !Holds(multiset(baseline), desired.certificate))
    ensures Serving(baseline, desired, current, [entry])
  {
    forall e | e in baseline && Some(e) != current
      ensures e in [entry] || (e.certificate == desired.certificate && desired in [entry])
    {
      assert e in multiset(baseline);
    }
  }

  /** Unbinding keeps service if it removes the current entry beside the desired
      one, or the desired one beside the current one. */
  lemma UnbindServes(baseline: seq<Entry>, desired: Entry, current: Option<Entry>, entries: seq<Entry>,
      certificate: string)
    requires Unique(baseline) && Serving(baseline, desired, current, entries)
    requires current.Some? ==> current.value in baseline && current.value.certificate != desired.certificate
    requires (current.Some? && certificate == current.value.certificate && desired in entries)
          || (certificate == desired.certificate && (current.Some? ==> current.value in entries)
              && !Holds(multiset(baseline), desired.certificate))
    ensures Serving(baseline, desired, current, DropEntries(entries, certificate))
  {
    DropUnique(entries, certificate);
    forall e | e in baseline && Some(e) != current
      ensures e in DropEntries(entries, certificate)
              || (e.certificate == desired.certificate && desired in DropEntries(entries, certificate))
    {
      assert e in multiset(baseline);
    }
  }

  /** Changing the entries of the run's template, to entries whose files exist,
      leaves every reference resolved. */
  lemma EntriesResolved(run: Run, world: World, world': World)
    requires Frame(run, world) && Frame(run, world')
    requires Resolved(world.running, world.certificates, world.keys)
    requires world'.certificates == world.certificates && world'.keys == world.keys
    requires forall e :: e in EntriesAt(run, world') ==> EntryResolved(e, world.certificates, world.keys)
    ensures Resolved(world'.running, world'.certificates, world'.keys)
  {
    var slot := world.running.clients[run.name];
    assert SlotResolved(slot, world.certificates, world.keys);
    assert world'.running.clients[run.name] == slot.(entries := EntriesAt(run, world'));
    forall name | name in world'.running.clients
      ensures SlotResolved(world'.running.clients[name], world'.certificates, world'.keys)
    {
      if name != run.name {
        assert world'.running.clients[name] == world.running.clients[name];
      }
    }
  }

  lemma ChangeSafe(run: Run, world: World, world': World, entries: seq<Entry>)
    requires SafeWorld(run, world) && world' == WithSlot(world, run.name, entries)
    requires Serving(EntriesAt(run, run.start), run.desired, run.current, entries)
    requires forall e :: e in entries ==> EntryResolved(e, world.certificates, world.keys)
    ensures SafeWorld(run, world')
  {
    assert Frame(run, world');
    EntriesResolved(run, world, world');
  }

  lemma StartUnique(run: Run)
    requires Start(run)
    ensures Unique(EntriesAt(run, run.start))
  {
    assert run.start.running.clients[run.name].WellFormed();
  }

  /** Entries of the baseline have their files as long as no old file was deleted. */
  lemma BaselineResolved(run: Run, world: World, p: Progress, e: Entry)
    requires Core(run, world, p) && !p.cleaned && e in EntriesAt(run, run.start)
    ensures EntryResolved(e, world.certificates, world.keys)
  {
    assert SlotResolved(run.start.running.clients[run.name], run.start.certificates, run.start.keys);
  }

  /** The desired entry has its files when it is about to be bound. */
  lemma DesiredResolved(run: Run, world: World, p: Progress, v: View)
    requires Sole(run, world, p, v) && !p.deleted && MaterialReady(run, p, v)
    ensures EntryResolved(run.desired, world.certificates, world.keys)
  {
  }

  lemma BoundResolved(run: Run, world: World, p: Progress, v: View, template: string, entry: Entry)
    requires Sole(run, world, p, v) && BindPermitted(run, p, v, template, entry)
    ensures EntryResolved(entry, world.certificates, world.keys)
    ensures forall e :: e in EntriesAt(run, world) ==> EntryResolved(e, world.certificates, world.keys)
  {
    assert SlotResolved(world.running.clients[run.name], world.certificates, world.keys);
    if p.save.Untried? {
      DesiredResolved(run, world, p, v);
    } else {
      BaselineResolved(run, world, p, entry);
    }
  }

  lemma BindServes(run: Run, world: World, p: Progress, v: View, template: string, entry: Entry)
    requires Sole(run, world, p, v) && BindPermitted(run, p, v, template, entry)
    ensures Serving(EntriesAt(run, run.start), run.desired, run.current,
                    DropEntries(EntriesAt(run, world), entry.certificate) + [entry])
    ensures |EntriesAt(run, world)| == 1 ==> Serving(EntriesAt(run, run.start), run.desired, run.current, [entry])
  {
    var baseline, entries := EntriesAt(run, run.start), EntriesAt(run, world);
    StartUnique(run);
    OverwriteServes(baseline, run.desired, run.current, entries, entry);
    if |entries| == 1 {
      if p.save.Untried? {
        SlotOfBag(entries, baseline, entries[0]);
      } else {
        assert Plan(run);
        GoalEntries(run.baseline, run.desired, run.current, run.desired);
        assert run.desired in multiset(entries);
      }
      ReplaceServes(baseline, run.desired, run.current, entries, entry);
    }
  }

  lemma BindWorld(run: Run, world: World, world': World, p: Progress, v: View, template: string, entry: Entry, ok: bool)
    requires Sole(run, world, p, v) && BindPermitted(run, p, v, template, entry)
    requires BindAnswered(world, world', template, entry, ok)
    ensures SafeWorld(run, world')
  {
    if world' != world {
      BoundResolved(run, world, p, v, template, entry);
      BindServes(run, world, p, v, template, entry);
      ChangeSafe(run, world, world', EntriesAt(run, world'));
    }
  }

  /** A change of bindings touches neither files nor the saved configuration. */
  lemma BindingChangeCore(run: Run, world: World, world': World, p: Progress, p': Progress)
    requires Start(run) && SafeWorld(run, world') && Bindings(run, world', p')
    requires Files(run, world, p) && SavedState(run, world, p) && (p.save.Untried? || p.save.Failed?)
    requires world'.certificates == world.certificates && world'.keys == world.keys && world'.saved == world.saved
    requires p' == p.(bound := p'.bound, rebound := p'.rebound) && (p.bound ==> p'.bound)
    ensures Core(run, world', p')
  {
  }

  lemma BindingChangeView(run: Run, world: World, world': World, p: Progress, p': Progress, v: View)
    requires run.name in world.running.clients && run.name in world'.running.clients
    requires ViewTrue(run, world, p, v)
    requires world'.certificates == world.certificates && world'.keys == world.keys
    requires p'.cleaned == p.cleaned
    ensures ViewTrue(run, world', p', v.(read := None, settled := None, clients := None, servers := None))
  {
  }

  /** What a bind request leaves alone, and what it makes of the entries. */
  lemma BindOutcome(run: Run, world: World, world': World, entry: Entry, ok: bool)
    requires run.name in world.running.clients
    requires BindAnswered(world, world', run.name, entry, ok)
    ensures world'.certificates == world.certificates && world'.keys == world.keys && world'.saved == world.saved
    ensures run.name in world'.running.clients
    ensures (!ok && world' == world) || entry in EntriesAt(run, world')
  {
  }

  lemma BindView(run: Run, world: World, world': World, p: Progress, v: View, template: string, entry: Entry, ok: bool)
    requires Sole(run, world, p, v) && run.name in world'.running.clients
    requires world'.certificates == world.certificates && world'.keys == world.keys
    ensures ViewTrue(run, world', NextProgress(run, p, Bound(template, entry, ok)),
                     NextView(v, Bound(template, entry, ok)))
  {
    BindingChangeView(run, world, world', p, NextProgress(run, p, Bound(template, entry, ok)), v);
  }

  /** The forward bind: from now on the desired entry may be bound. */
  lemma ForwardBindCore(run: Run, world: World, world': World, p: Progress)
    requires Start(run) && Files(run, world, p) && SavedState(run, world, p) && p.save.Untried?
    requires Frame(run, world) && Bindings(run, world, p) && SafeWorld(run, world')
    requires world'.certificates == world.certificates && world'.keys == world.keys && world'.saved == world.saved
    ensures Core(run, world', p.(bound := true))
  {
    BindingChangeCore(run, world, world', p, p.(bound := true));
  }

  /** The bind of a rollback: acknowledged, it has put the current entry back. */
  lemma BackwardBindCore(run: Run, world: World, world': World, p: Progress, entry: Entry, ok: bool)
    requires Start(run) && Files(run, world, p) && SavedState(run, world, p) && p.save.Failed?
    requires Frame(run, world) && Bindings(run, world, p) && SafeWorld(run, world')
    requires run.current == Some(entry) && entry in EntriesAt(run, run.start)
    requires world'.certificates == world.certificates && world'.keys == world.keys && world'.saved == world.saved
    requires (!ok && world' == world) || entry in EntriesAt(run, world')
    requires !p.bound ==> entry != run.desired && run.desired in EntriesAt(run, world)
    ensures Core(run, world', p.(rebound := p.rebound || ok))
  {
    assert !p.bound ==> run.desired in EntriesAt(run, run.start);
    BindingChangeCore(run, world, world', p, p.(rebound := p.rebound || ok));
  }

  /** Which of the two binds a permitted bind is. */
  lemma BindKinds(run: Run, world: World, p: Progress, v: View, template: string, entry: Entry)
    requires Sole(run, world, p, v) && BindPermitted(run, p, v, template, entry)
    ensures template == run.name
    ensures (p.save.Untried? && entry == run.desired)
         || (p.save.Failed? && run.current == Some(entry) && entry != run.desired
           && run.desired in EntriesAt(run, world))
  {
    if p.save.Failed? {
      assert Plan(run);
      GoalEntries(run.baseline, run.desired, run.current, run.desired);
      assert run.desired in multiset(EntriesAt(run, world));
    }
  }

  lemma BindCore(run: Run, world: World, world': World, p: Progress, entry: Entry, ok: bool)
    requires Core(run, world, p) && SafeWorld(run, world')
    requires (p.save.Untried? && entry == run.desired)
          || (p.save.Failed? && run.current == Some(entry) && entry != run.desired
            && run.desired in EntriesAt(run, world))
    requires world'.certificates == world.certificates && world'.keys == world.keys && world'.saved == world.saved
    requires (!ok && world' == world) || entry in EntriesAt(run, world')
    ensures Core(run, world', NextProgress(run, p, Bound(run.name, entry, ok)))
  {
    if p.save.Untried? {
      ForwardBindCore(run, world, world', p);
    } else {
      BackwardBindCore(run, world, world', p, entry, ok);
    }
  }

  lemma BindSafe(run: Run, world: World, world': World, p: Progress, v: View, template: string, entry: Entry, ok: bool)
    requires Kept(run, world, p, v) && BindPermitted(run, p, v, template, entry)
    requires BindAnswered(world, world', template, entry, ok)
    ensures Kept(run, world', NextProgress(run, p, Bound(template, entry, ok)), NextView(v, Bound(template, entry, ok)))
    ensures SafeWorld(run, world')
  {
    assert Sole(run, world, p, v);
    BindWorld(run, world, world', p, v, template, entry, ok);
    BindKinds(run, world, p, v, template, entry);
    BindOutcome(run, world, world', entry, ok);
    BindCore(run, world, world', p, entry, ok);
    BindView(run, world, world', p, v, template, entry, ok);
  }

  lemma UnbindServing(run: Run, world: World, p: Progress, v: View, template: string, certificate: string)
    requires Sole(run, world, p, v) && UnbindPermitted(run, p, v, template, certificate)
    ensures Serving(EntriesAt(run, run.start), run.desired, run.current,
                    DropEntries(EntriesAt(run, world), certificate))
  {
    var entries := EntriesAt(run, world);
    StartUnique(run);
    assert v.read.value == SlotContent(run.name, world.running.clients[run.name]);
    if p.save.Untried? {
      assert Plan(run);
      assert run.desired in multiset(entries);
    } else if run.current.Some? && !p.rebound {
      assert run.current.value in multiset(entries);
    }
    UnbindServes(EntriesAt(run, run.start), run.desired, run.current, entries, certificate);
  }

  lemma UnbindWorld(run: Run, world: World, world': World, p: Progress, v: View, template: string, certificate: string,
      ok: bool)
    requires Sole(run, world, p, v) && UnbindPermitted(run, p, v, template, certificate)
    requires UnbindAnswered(world, world', template, certificate, ok)
    ensures SafeWorld(run, world')
  {
    if world' != world {
      assert SlotResolved(world.running.clients[run.name], world.certificates, world.keys);
      UnbindServing(run, world, p, v, template, certificate);
      ChangeSafe(run, world, world', EntriesAt(run, world'));
    }
  }

  lemma UnbindBindings(run: Run, world: World, world': World, p: Progress, certificate: string, ok: bool)
    requires Frame(run, world) && Frame(run, world') && Bindings(run, world, p)
    requires (!ok && world' == world) || EntriesAt(run, world') == DropEntries(EntriesAt(run, world), certificate)
    requires p.rebound && run.current.Some? ==> run.current.value.certificate != certificate
    ensures Bindings(run, world', p)
  {
  }

  lemma UnbindCore(run: Run, world: World, world': World, p: Progress, v: View, template: string, certificate: string,
      ok: bool)
    requires Core(run, world, p) && UnbindPermitted(run, p, v, template, certificate)
    requires UnbindAnswered(world, world', template, certificate, ok)
    requires SafeWorld(run, world')
    ensures Core(run, world', p)
  {
    UnbindBindings(run, world, world', p, certificate, ok);
    BindingChangeCore(run, world, world', p, p);
  }

  lemma UnbindView(run: Run, world: World, world': World, p: Progress, v: View, template: string, certificate: string,
      ok: bool)
    requires Sole(run, world, p, v) && UnbindAnswered(world, world', run.name, certificate, ok)
    ensures run.name in world'.running.clients
    ensures ViewTrue(run, world', NextProgress(run, p, Unbound(template, certificate, ok)),
                     NextView(v, Unbound(template, certificate, ok)))
  {
    BindingChangeView(run, world, world', p, p, v);
  }

  lemma UnbindSafe(run: Run, world: World, world': World, p: Progress, v: View, template: string, certificate: string,
      ok: bool)
    requires Kept(run, world, p, v) && UnbindPermitted(run, p, v, template, certificate)
    requires UnbindAnswered(world, world', template, certificate, ok)
    ensures Kept(run, world', NextProgress(run, p, Unbound(template, certificate, ok)),
                 NextView(v, Unbound(template, certificate, ok)))
    ensures SafeWorld(run, world')
  {
    assert Sole(run, world, p, v);
    UnbindWorld(run, world, world', p, v, template, certificate, ok);
    UnbindCore(run, world, world', p, v, template, certificate, ok);
    UnbindView(run, world, world', p, v, template, certificate, ok);
  }

  // ---- saves ----

  lemma SaveWorld(run: Run, world: World, world': World)
    requires SafeWorld(run, world)
    requires world' == world || world' == world.(saved := world.running)
    ensures SafeWorld(run, world')
  {
  }

  lemma SavedAfter(run: Run, world: World, world': World, p: Progress, ok: bool)
    requires SavedState(run, world, p) && !p.save.Restored?
    requires world' == world || world' == world.(saved := world.running)
    requires ok ==> world' == world.(saved := world.running)
    requires !ok && run.keepsSaved ==> world' == world
    ensures SavedState(run, world', NextProgress(run, p, Saved(ok)))
  {
  }

  lemma FilesAfterSave(run: Run, world: World, world': World, p: Progress, ok: bool)
    requires Files(run, world, p) && (p.save.Untried? ==> !run.noWrite && !p.deleted)
    requires world'.certificates == world.certificates && world'.keys == world.keys
    ensures Files(run, world', NextProgress(run, p, Saved(ok)))
  {
  }

  lemma BindingsAfterSave(run: Run, world: World, world': World, p: Progress, ok: bool)
    requires Frame(run, world) && Frame(run, world') && Bindings(run, world, p) && world'.running == world.running
    ensures Bindings(run, world', NextProgress(run, p, Saved(ok)))
  {
  }

  lemma SaveCore(run: Run, world: World, world': World, p: Progress, ok: bool)
    requires Start(run) && SafeWorld(run, world') && Files(run, world, p) && SavedState(run, world, p)
    requires Frame(run, world) && Bindings(run, world, p)
    requires !p.save.Restored? && (p.save.Untried? ==> !run.noWrite && !p.deleted)
    requires world' == world || world' == world.(saved := world.running)
    requires ok ==> world' == world.(saved := world.running)
    requires !ok && run.keepsSaved ==> world' == world
    ensures Core(run, world', NextProgress(run, p, Saved(ok)))
  {
    SavedAfter(run, world, world', p, ok);
    FilesAfterSave(run, world, world', p, ok);
    BindingsAfterSave(run, world, world', p, ok);
  }

  lemma SaveView(run: Run, world: World, world': World, p: Progress, v: View, ok: bool)
    requires Sole(run, world, p, v) && world' == world.(saved := world'.saved)
    ensures ViewTrue(run, world', NextProgress(run, p, Saved(ok)), NextView(v, Saved(ok)))
  {
  }

  lemma SaveSafe(run: Run, world: World, world': World, p: Progress, v: View, ok: bool)
    requires Kept(run, world, p, v) && SavePermitted(run, p, v)
    requires SaveEffect(world, world', !run.keepsSaved, ok)
    ensures Kept(run, world', NextProgress(run, p, Saved(ok)), NextView(v, Saved(ok))) && SafeWorld(run, world')
  {
    assert Sole(run, world, p, v);
    SaveWorld(run, world, world');
    SaveCore(run, world, world', p, ok);
    SaveView(run, world, world', p, v, ok);
  }

  // ---- deletions ----

  /** With baseline entries only, everything is resolved by the files of the start. */
  lemma BaselineEntriesResolved(run: Run, world: World, certificates: set<string>, keys: set<string>)
    requires Start(run) && Frame(run, world)
    requires forall e :: e in EntriesAt(run, world) ==> e in EntriesAt(run, run.start)
    requires run.start.certificates <= certificates && run.start.keys <= keys
    ensures Resolved(world.running, certificates, keys)
  {
    var start := run.start.running;
    ResolvedMore(start, run.start.certificates, run.start.keys, certificates, keys);
    forall name | name in world.running.clients ensures SlotResolved(world.running.clients[name], certificates, keys) {
      assert SlotResolved(start.clients[name], certificates, keys);
    }
  }

  /** An upload of this run is not a file of the start, and there is none if the
      desired entry was bound at the start. */
  lemma NoUploadIfBound(run: Run, world: World, p: Progress)
    requires Core(run, world, p) && run.desired in run.baseline.bindings
    ensures p.mineCertificates == {} && p.mineKeys == {}
  {
    assert run.desired in EntriesAt(run, run.start);
    assert SlotResolved(run.start.running.clients[run.name], run.start.certificates, run.start.keys);
    if run.desired.chain != "" {
      assert run.desired.chain in run.start.certificates;
    }
  }

  /** When the run undoes its uploads, only baseline entries are bound. */
  lemma UndoBaseline(run: Run, world: World, p: Progress, v: View, certificate: string, key: string)
    requires Sole(run, world, p, v) && UndoPermitted(run, p, v, certificate, key)
    ensures forall e :: e in EntriesAt(run, world) ==> e in EntriesAt(run, run.start)
  {
    if p.bound {
      forall e | e in EntriesAt(run, world) ensures e in EntriesAt(run, run.start) {
        SlotOfBag(EntriesAt(run, world), EntriesAt(run, run.start), e);
      }
    }
  }

  /** The files of the start survive an undo. */
  lemma UndoKeepsStart(run: Run, world: World, world': World, p: Progress, v: View, certificate: string, key: string,
      ok: bool)
    requires Sole(run, world, p, v) && UndoPermitted(run, p, v, certificate, key)
    requires (certificate != "" || key != "") && DeleteEffect(world, world', certificate, key, ok)
    ensures !p.cleaned
    ensures run.start.certificates <= world'.certificates && run.start.keys <= world'.keys
  {
    if p.cleaned {
      NoUploadIfBound(run, world, p);
    }
  }

  /** Undoing uploads deletes nothing that any running or saved template names. */
  lemma UndoWorld(run: Run, world: World, world': World, p: Progress, v: View, certificate: string, key: string,
      ok: bool)
    requires Sole(run, world, p, v) && UndoPermitted(run, p, v, certificate, key)
    requires (certificate != "" || key != "") && DeleteEffect(world, world', certificate, key, ok)
    ensures SafeWorld(run, world')
  {
    UndoKeepsStart(run, world, world', p, v, certificate, key, ok);
    UndoBaseline(run, world, p, v, certificate, key);
    BaselineEntriesResolved(run, world', world'.certificates, world'.keys);
    if run.guarded {
      ResolvedMore(run.start.saved, run.start.certificates, run.start.keys, world'.certificates, world'.keys);
    }
  }

  lemma UndoSafe(run: Run, world: World, world': World, p: Progress, v: View, certificate: string, key: string,
      ok: bool)
    requires Sole(run, world, p, v) && UndoPermitted(run, p, v, certificate, key)
    requires (certificate != "" || key != "") && DeleteEffect(world, world', certificate, key, ok)
    ensures Sole(run, world', NextProgress(run, p, Deleted(true, certificate, key, ok)),
                 NextView(v, Deleted(true, certificate, key, ok)))
  {
    UndoWorld(run, world, world', p, v, certificate, key, ok);
    UndoKeepsStart(run, world, world', p, v, certificate, key, ok);
    DeletionCore(run, world, world', p, NextProgress(run, p, Deleted(true, certificate, key, ok)));
    DeletionView(run, world, world', p, NextProgress(run, p, Deleted(true, certificate, key, ok)), v);
  }

  /** Deletion leaves both configurations alone. */
  lemma DeletionCore(run: Run, world: World, world': World, p: Progress, p': Progress)
    requires Core(run, world, p) && SafeWorld(run, world')
    requires world' == world.(certificates := world'.certificates, keys := world'.keys)
    requires world'.certificates <= world.certificates && world'.keys <= world.keys
    requires p' == p.(deleted := true, cleaned := p'.cleaned, purged := p'.purged)
    requires p'.cleaned ==> (p.bound || run.desired in run.baseline.bindings)
                            && (p.save.Persisted? || (run.noWrite && p.save.Untried?))
    requires run.start.certificates <= world'.certificates + OldCertificates(run)
      && run.start.keys <= world'.keys + OldKeys(run)
    requires !p'.cleaned ==> run.start.certificates <= world'.certificates && run.start.keys <= world'.keys
    ensures Core(run, world', p')
  {
  }

  lemma DeletionView(run: Run, world: World, world': World, p: Progress, p': Progress, v: View)
    requires run.name in world.running.clients && world'.running == world.running && ViewTrue(run, world, p, v)
    ensures ViewTrue(run, world', p', v.(read := None, certificates := None, keys := None))
  {
  }

  // ---- cleanup of replaced files ----

  lemma {:induction false} ClientMentioned(list: seq<ClientTemplate>, i: nat, name: string)
    requires i < |list| && Mentions(list[i].payload, name)
    ensures ClientsMention(list, name)
  {
    if i > 0 { ClientMentioned(list[1..], i - 1, name); }
  }

  lemma {:induction false} ServerMentioned(list: seq<ServerTemplate>, i: nat, name: string)
    requires i < |list| && Mentions(list[i].payload, name)
    ensures ServersMention(list, name)
  {
    if i > 0 { ServerMentioned(list[1..], i - 1, name); }
  }

  /** A name mentioned in no response is named by no client-SSL template. */
  lemma UnmentionedSlot(list: seq<ClientTemplate>, clients: map<string, Slot>, at: string, name: string)
    requires PresentsClients(list, clients) && at in clients && clients[at].WellFormed() && name != ""
    requires !ClientsMention(list, name)
    ensures name !in clients[at].certificateRefs && name !in clients[at].keyRefs
    ensures forall e :: e in clients[at].entries ==> e.certificate != name && e.key != name && e.chain != name
  {
    var i :| 0 <= i < |list| && Presents(list[i], at, clients[at]);
    if Mentions(list[i].payload, name) { ClientMentioned(list, i, name); }
    var json := list[i].payload.json;
    forall e | e in clients[at].entries ensures e.certificate != name && e.key != name && e.chain != name {
      assert e in multiset(clients[at].entries);
      if e.certificate == name || e.key == name || e.chain == name {
        EntryIsLeaf(json, list[i], e, name);
      }
    }
    if name in clients[at].certificateRefs || name in clients[at].keyRefs {
      RestIsLeaf(json, list[i], name);
    }
  }

  lemma UnmentionedBackend(list: seq<ServerTemplate>, servers: map<string, Backend>, at: string, name: string)
    requires PresentsServers(list, servers) && at in servers && servers[at].WellFormed()
    requires !ServersMention(list, name)
    ensures name !in servers[at].certificateRefs && name !in servers[at].keyRefs
  {
    var i :| 0 <= i < |list| && list[i].payload == Tree(servers[at].payload);
    if Mentions(list[i].payload, name) { ServerMentioned(list, i, name); }
  }

  ghost predicate WellFormedConfig(config: Config) {
    && (forall name :: name in config.clients ==> config.clients[name].WellFormed())
    && (forall name :: name in config.servers ==> config.servers[name].WellFormed())
  }

  lemma RunningWellFormed(run: Run, world: World, p: Progress)
    requires Core(run, world, p)
    ensures WellFormedConfig(world.running)
  {
    assert run.start.running.clients[run.name].WellFormed();
  }

  lemma PurgedCertificate(clients: map<string, Slot>, at: string, v: View, certificates: set<string>, keys: set<string>,
      certificate: string)
    requires at in clients && clients[at].WellFormed() && SlotResolved(clients[at], certificates, keys)
    requires v.clients.Some? && PresentsClients(v.clients.value, clients)
    requires certificate == "" || !ClientsMention(v.clients.value, certificate)
    ensures SlotResolved(clients[at], certificates - Selected(certificate), keys)
  {
    if certificate != "" { UnmentionedSlot(v.clients.value, clients, at, certificate); }
  }

  lemma PurgedKey(clients: map<string, Slot>, at: string, v: View, certificates: set<string>, keys: set<string>,
      key: string)
    requires at in clients && clients[at].WellFormed() && SlotResolved(clients[at], certificates, keys)
    requires v.clients.Some? && PresentsClients(v.clients.value, clients)
    requires key == "" || !ClientsMention(v.clients.value, key)
    ensures SlotResolved(clients[at], certificates, keys - Selected(key))
  {
    if key != "" { UnmentionedSlot(v.clients.value, clients, at, key); }
  }

  lemma PurgedBackend(servers: map<string, Backend>, at: string, v: View, certificate: string, key: string)
    requires at in servers && servers[at].WellFormed()
    requires v.servers.Some? && PresentsServers(v.servers.value, servers)
    requires certificate == "" || Unmentioned(v, certificate)
    requires key == "" || Unmentioned(v, key)
    ensures certificate != "" ==> certificate !in servers[at].certificateRefs
    ensures key != "" ==> key !in servers[at].keyRefs
  {
    if certificate != "" { UnmentionedBackend(v.servers.value, servers, at, certificate); }
    if key != "" { UnmentionedBackend(v.servers.value, servers, at, key); }
  }

  /** Deleting names that no response mentions leaves every reference resolved. */
  lemma PurgeResolved(config: Config, v: View, certificates: set<string>, keys: set<string>, certificate: string,
      key: string)
    requires WellFormedConfig(config) && Resolved(config, certificates, keys)
    requires v.clients.Some? && PresentsClients(v.clients.value, config.clients)
    requires v.servers.Some? && PresentsServers(v.servers.value, config.servers)
    requires certificate == "" || Unmentioned(v, certificate)
    requires key == "" || Unmentioned(v, key)
    ensures Resolved(config, certificates - Selected(certificate), keys - Selected(key))
  {
    forall name | name in config.clients
      ensures SlotResolved(config.clients[name], certificates - Selected(certificate), keys - Selected(key))
    {
      PurgedCertificate(config.clients, name, v, certificates, keys, certificate);
      PurgedKey(config.clients, name, v, certificates - Selected(certificate), keys, key);
    }
    forall name | name in config.servers
      ensures config.servers[name].certificateRefs <= certificates - Selected(certificate)
      ensures config.servers[name].keyRefs <= keys - Selected(key)
    {
      PurgedBackend(config.servers, name, v, certificate, key);
    }
  }

  /** The template lists show the running configuration. */
  ghost predicate ListsTrue(world: World, v: View) {
    v.clients.Some? && v.servers.Some? ==> ListsShow(v.clients.value, v.servers.value, world.running)
  }

  ghost predicate ListsShow(clients: seq<ClientTemplate>, servers: seq<ServerTemplate>, config: Config) {
    PresentsClients(clients, config.clients) && PresentsServers(servers, config.servers)
  }

  lemma PurgeWorld(run: Run, world: World, world': World, p: Progress, v: View, certificate: string, key: string,
      ok: bool)
    requires Sole(run, world, p, v) && PurgePermitted(run, p, v, certificate, key) && ListsTrue(world, v)
    requires (certificate != "" || key != "") && DeleteEffect(world, world', certificate, key, ok)
    ensures SafeWorld(run, world')
  {
    RunningWellFormed(run, world, p);
    PurgeResolved(world.running, v, world.certificates, world.keys, certificate, key);
    ResolvedMore(world.running, world.certificates - Selected(certificate), world.keys - Selected(key),
                 world'.certificates, world'.keys);
  }

  lemma PurgeCore(run: Run, world: World, world': World, p: Progress, v: View, certificate: string, key: string,
      ok: bool)
    requires Core(run, world, p) && SafeWorld(run, world') && PurgePermitted(run, p, v, certificate, key)
    requires DeleteEffect(world, world', certificate, key, ok)
    ensures Core(run, world', NextProgress(run, p, Deleted(false, certificate, key, ok)))
  {
    assert Selected(certificate) <= OldCertificates(run) && Selected(key) <= OldKeys(run);
    DeletionCore(run, world, world', p, NextProgress(run, p, Deleted(false, certificate, key, ok)));
  }

  lemma PurgeView(run: Run, world: World, world': World, p: Progress, v: View, certificate: string, key: string,
      ok: bool)
    requires Sole(run, world, p, v) && DeleteEffect(world, world', certificate, key, ok)
    ensures ViewTrue(run, world', NextProgress(run, p, Deleted(false, certificate, key, ok)),
                     NextView(v, Deleted(false, certificate, key, ok)))
  {
    DeletionView(run, world, world', p, NextProgress(run, p, Deleted(false, certificate, key, ok)), v);
  }

  lemma PurgeSafe(run: Run, world: World, world': World, p: Progress, v: View, certificate: string, key: string,
      ok: bool)
    requires Sole(run, world, p, v) && PurgePermitted(run, p, v, certificate, key) && ListsTrue(world, v)
    requires (certificate != "" || key != "") && DeleteEffect(world, world', certificate, key, ok)
    ensures Sole(run, world', NextProgress(run, p, Deleted(false, certificate, key, ok)),
                 NextView(v, Deleted(false, certificate, key, ok)))
  {
    PurgeWorld(run, world, world', p, v, certificate, key, ok);
    PurgeCore(run, world, world', p, v, certificate, key, ok);
    PurgeView(run, world, world', p, v, certificate, key, ok);
  }

  // ---- where the saved configuration is not guarded ----

  /** The files of the current entry exist. */
  predicate OldStored(run: Run, world: World) {
    run.current.Some? ==> EntryResolved(run.current.value, world.certificates, world.keys)
  }

  lemma OldStillStored(run: Run, world: World, p: Progress, v: View)
    requires Kept(run, world, p, v) && !p.cleaned
    ensures OldStored(run, world)
  {
    assert Sole(run, world, p, v);
    assert SlotResolved(run.start.running.clients[run.name], run.start.certificates, run.start.keys);
  }

  /** With saving off and the configuration saved that was running at the start, the
      saved configuration is resolved exactly as long as the files of the current
      entry exist, after whatever calls. */
  lemma UnsavedResolvedExactly(run: Run, world: World, p: Progress, v: View)
    requires Kept(run, world, p, v) && run.noWrite && run.start.saved == run.start.running
    ensures Resolved(world.saved, world.certificates, world.keys) <==> OldStored(run, world)
  {
    assert Sole(run, world, p, v);
    assert world.saved == run.start.running;
    if OldStored(run, world) {
      assert OldCertificates(run) <= world.certificates && OldKeys(run) <= world.keys;
      ResolvedMore(run.start.running, run.start.certificates, run.start.keys, world.certificates, world.keys);
    } else {
      assert run.current.value in world.saved.clients[run.name].entries;
    }
  }

  /** When a save that failed was applied while the desired entry was bound, an undo
      that deletes a file of that entry leaves the saved configuration dangling. */
  lemma LossySaveDangles(run: Run, world: World, world': World, p: Progress, v: View, certificate: string, key: string)
    requires Kept(run, world, p, v) && p.save.Failed? && UndoPermitted(run, p, v, certificate, key)
    requires run.name in world.saved.clients && run.desired in world.saved.clients[run.name].entries
    requires DeleteEffect(world, world', certificate, key, true)
    requires certificate == run.desired.certificate || key == run.desired.key
    ensures !Resolved(world'.saved, world'.certificates, world'.keys)
  {
    assert Sole(run, world, p, v);
    assert run.desired in world'.saved.clients[run.name].entries;
  }

  // ---- what an acknowledged binding change did to the content ----

  /** Overwrite by name, or replacement of a sole entry. */
  ghost predicate BindContent(before: Content, after: Content, entry: Entry) {
    || after == before.(bindings := Drop(before.bindings, entry.certificate) + multiset{entry})
    || (|before.bindings| == 1 && after == before.(bindings := multiset{entry}))
  }

  lemma ConsBag(first: Entry, rest: seq<Entry>)
    ensures multiset([first] + rest) == multiset(rest) + multiset{first}
  {
  }

  lemma {:induction false} DropEntriesBag(entries: seq<Entry>, certificate: string)
    ensures multiset(DropEntries(entries, certificate)) == Drop(multiset(entries), certificate)
  {
    if entries != [] {
      assert entries == [entries[0]] + entries[1..];
      ConsBag(entries[0], entries[1..]);
      ConsBag(entries[0], DropEntries(entries[1..], certificate));
      DropEntriesBag(entries[1..], certificate);
      DropAppend(multiset(entries[1..]), entries[0], certificate);
    }
  }

  lemma BindEffectContent(run: Run, world: World, world': World, entry: Entry)
    requires BindAnswered(world, world', run.name, entry, true)
    ensures run.name in world'.running.clients
    ensures BindContent(SlotContent(run.name, world.running.clients[run.name]),
                        SlotContent(run.name, world'.running.clients[run.name]), entry)
  {
    DropEntriesBag(EntriesAt(run, world), entry.certificate);
    assert |multiset(EntriesAt(run, world))| == |EntriesAt(run, world)|;
  }

  lemma UnbindEffectContent(run: Run, world: World, world': World, certificate: string)
    requires UnbindAnswered(world, world', run.name, certificate, true)
    ensures run.name in world'.running.clients
    ensures SlotContent(run.name, world'.running.clients[run.name]) ==
            Removed(SlotContent(run.name, world.running.clients[run.name]), certificate)
  {
    DropEntriesBag(EntriesAt(run, world), certificate);
  }
}
