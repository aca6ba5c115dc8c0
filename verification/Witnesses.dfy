/** Starting points that the general statements decide: some from which a failed save
    is never rolled back, although nothing else goes wrong, and some with old names
    that cannot be sent. Each is a sane state of the appliance that a read can show. */
module Witnesses {
  import opened Wrappers
  import opened JsonTree
  import opened Templates
  import opened Contents
  import opened Appliance
  import opened Responses
  import opened Monitor
  import opened Names
  import opened Sessions
  import opened Restore
  import opened Targets
  import opened Checks
  import opened Uploads
  import opened Rotation
  import opened Sync
  import opened Synchronization

  /** A template with certificate entries and nothing else. */
  function Bare(entries: seq<Entry>): Slot {
    Slot(entries, map[], {}, {})
  }

  lemma ListDecodes(entries: seq<Entry>, list: seq<Json>)
    requires |list| == |entries| && forall i :: 0 <= i < |list| ==> list[i] == BindingJson(entries[i])
    ensures DecodeAll(list, DecodeBinding).Some?
  {
    forall i | 0 <= i < |list| ensures DecodeBinding(list[i]).Some? {
      BindingDecodes(entries[i]);
    }
  }

  lemma NoForward(fields: map<string, Json>)
    requires fields.Keys == {"name", "certificate-list"}
    ensures DecodeForward(fields).Some?
  {
    assert "fp-ca-chain-cert"[0] != "certificate-list"[0];
  }

  lemma BareDecodes(name: string, list: seq<Json>)
    requires DecodeAll(list, DecodeBinding).Some?
    ensures DecodeClient(Object(map["name" := String(name), "certificate-list" := Array(list)])).Some?
  {
    var fields := map["name" := String(name), "certificate-list" := Array(list)];
    NoForward(fields);
    assert "server-name-list"[0] != "certificate-list"[0] && "uuid"[0] != "name"[0];
  }

  lemma ResponseDecodes(name: string, entries: seq<Entry>)
    ensures DecodeClient(ResponseOf(name, Bare(entries))).Some?
  {
    var json := ResponseOf(name, Bare(entries));
    var list := json.fields["certificate-list"].items;
    assert json == Object(map["name" := String(name), "certificate-list" := Array(list)]);
    ListDecodes(entries, list);
    BareDecodes(name, list);
  }

  /** It has a response, which a read may return. */
  lemma BareResponse(name: string, entries: seq<Entry>) returns (template: ClientTemplate)
    ensures Presents(template, name, Bare(entries)) && template.payload == Tree(ResponseOf(name, Bare(entries)))
  {
    ResponseDecodes(name, entries);
    template := DecodeClient(ResponseOf(name, Bare(entries))).value;
    ResponseShows(name, Bare(entries), template);
  }

  function CertificatesOf(entries: seq<Entry>): (names: set<string>)
    ensures forall e :: e in entries ==> e.certificate in names && e.chain in names
  {
    if entries == [] then {} else {entries[0].certificate, entries[0].chain} + CertificatesOf(entries[1..])
  }

  function KeysOf(entries: seq<Entry>): (names: set<string>)
    ensures forall e :: e in entries ==> e.key in names
  {
    if entries == [] then {} else {entries[0].key} + KeysOf(entries[1..])
  }

  /** One template with these entries, saved as it runs, and the files it names. */
  function WorldWith(name: string, entries: seq<Entry>): World {
    var config := Config(map[name := Bare(entries)], map[]);
    World(config, config, CertificatesOf(entries), KeysOf(entries), map[])
  }

  lemma WorldSane(name: string, entries: seq<Entry>)
    requires Unique(entries)
    ensures Sane(WorldWith(name, entries))
  {
    var w := WorldWith(name, entries);
    assert Bare(entries).WellFormed();
    assert SlotResolved(Bare(entries), w.certificates, w.keys);
  }

  /** Old and desired entry side by side: the old one is removed on the way to the
      goal, and a rollback does not put it back, because the desired name was bound
      at the start. */
  lemma BothBound(run: Run, old': Entry)
    requires run.baseline == SlotContent(run.name, Bare([old', run.desired])) && run.current == Some(old')
    requires old'.certificate != run.desired.certificate
    ensures !Restorable(run)
  {
    assert run.desired in multiset([old', run.desired]);
  }

  /** A sole entry whose key has a name that the client refuses to send: a bind that
      replaces it cannot be taken back. */
  lemma OldRefused(run: Run, old': Entry)
    requires run.baseline == SlotContent(run.name, Bare([old'])) && run.current == Some(old')
    requires old'.key == "k#1" && old'.certificate != run.desired.certificate
    ensures !Restorable(run)
  {
    assert old'.key[1] == '#';
    assert run.baseline.bindings == multiset{old'};
  }

  /** The entry that a call for this target binds, if names can be formed. */
  predicate Binds(template: string, bundle: Bundle, options: Options, desired: Entry) {
    var names := NamesForTarget(bundle.checksum, bundle.chain != [], options.namePrefix, template);
    names.Some? && desired == DesiredBinding(names.value, options.shared).Logical()
  }

  lemma Selects(run: Run, old': Entry, both: bool)
    requires run.baseline == SlotContent(run.name, Bare(if both then [old', run.desired] else [old']))
    requires old'.certificate != run.desired.certificate && old'.certificate != ""
    requires SelectedRightly(run.baseline, run.desired, run.current, if both then old'.certificate else "")
    ensures run.current == Some(old')
  {
    var bag := if both then multiset{old', run.desired} else multiset{old'};
    assert run.baseline.bindings == bag;
  }

  /** A run of a sole writer from either state. */
  lemma NotRestorable(session: Session, old': Entry, both: bool)
    requires session.Valid() && session.sole
    requires session.run.start == WorldWith(session.run.name, if both then [old', session.run.desired] else [old'])
    requires old'.certificate != session.run.desired.certificate && old'.certificate != ""
      && (!both ==> old'.key == "k#1")
    requires SelectedRightly(session.run.baseline, session.run.desired, session.run.current,
      if both then old'.certificate else "")
    ensures !Restorable(session.run)
  {
    BaselineIsStart(session.run, session.device.world, session.watch.progress, session.watch.view);
    Selects(session.run, old', both);
    if both {
      BothBound(session.run, old');
    } else {
      OldRefused(session.run, old');
    }
  }

  /** From either state a call whose save fails ends as ambiguous, with a failed
      rollback, even if no other request fails. */
  method SyncUnrestorable(session: Session, template: string, bundle: Bundle, options: Options, old': Entry, both: bool,
      ghost desired: Entry)
    returns (result: SyncResult, fault: Option<Fault>, ghost started: bool)
    requires bundle.valid ==> WellFormedDigest(bundle.checksum)
    requires Binds(template, bundle, options, desired) && !session.device.mode.rival
    requires old'.certificate != desired.certificate && old'.certificate != "" && (!both ==> old'.key == "k#1")
    requires session.device.world == WorldWith(template, if both then [old', desired] else [old'])
    modifies session, session.device
    ensures started && (session.watch.progress.save.Failed? || session.watch.progress.save.Restored?) ==>
      fault.Some? && fault.value.RollbackFailed? && !result.rolledBack
  {
    WorldSane(template, if both then [old', desired] else [old']);
    ghost var seen;
    var target := Target(template, if both then old'.certificate else "");
    result, fault, started, seen := SyncCertificate(session, target, bundle, options);
    if started {
      NotRestorable(session, old', both);
      UndoFails(session, options, result, fault);
    }
  }

  lemma UndoFails(session: Session, options: Options, result: SyncResult, fault: Option<Fault>)
    requires session.sole && !Restorable(session.run)
    requires if fault.None? then Succeeds(session, options, result) else FailsHonestly(session, result, fault.value)
    ensures session.watch.progress.save.Failed? || session.watch.progress.save.Restored? ==>
      fault.Some? && fault.value.RollbackFailed? && !result.rolledBack
  {
  }

  // ---- old names that cannot be sent ----

  /** The states on the way from a sole old entry. */
  lemma SoleOldStates(run: Run, old': Entry)
    requires Plan(run) && run.baseline == SlotContent(run.name, Bare([old'])) && run.current == Some(old')
    requires old'.certificate != run.desired.certificate
    ensures run.added.bindings == multiset{old', run.desired} && run.goal.bindings == multiset{run.desired}
    ensures !Occupied(run)
  {
    assert run.baseline.bindings == multiset{old'};
    DropAppend(multiset{old'}, run.desired, old'.certificate);
    OnlyOne(multiset{old'}, old');
  }

  /** How a call without cleanup ends that replaces a sole entry. */
  ghost predicate SoleOldDecided(session: Session, old': Entry, fault: Option<Fault>)
    reads session, session.device
  {
    && (ValidFileName(old'.certificate) ==> fault.None?)
    && (fault.None? <==> session.Actual().bindings == multiset{session.run.desired})
    && (fault.Some? ==>
          fault == Some(CallFailed) && session.Actual().bindings == multiset{old', session.run.desired})
  }

  lemma SoleOldEnds(session: Session, old': Entry, bundle: Bundle, fault: Option<Fault>)
    requires session.Valid() && session.sole && session.watch.failures == 0 && !session.run.cleanup
    requires session.run.start == WorldWith(session.run.name, [old'])
    requires old'.certificate != session.run.desired.certificate && old'.certificate != ""
    requires SelectedRightly(session.run.baseline, session.run.desired, session.run.current, "")
    requires Managed(session.run.desired, bundle) && Decided(session, bundle, fault)
    requires MetadataFits(session.run.start, session.run.desired, bundle)
    ensures SoleOldDecided(session, old', fault)
  {
    BaselineIsStart(session.run, session.device.world, session.watch.progress, session.watch.view);
    Selects(session.run, old', false);
    assert Plan(session.run);
    SoleOldStates(session.run, old');
  }

  /** Without cleanup, the names of key and chain of a replaced entry do not matter,
      such as a key "k#1" that the client refuses to send. A certificate name that it
      refuses stops the run exactly if the appliance has not replaced the entry by
      itself: then both stay bound. */
  method SyncSoleOld(session: Session, template: string, bundle: Bundle, options: Options, ghost old': Entry,
      ghost desired: Entry)
    returns (result: SyncResult, fault: Option<Fault>, ghost started: bool)
    requires bundle.valid ==> WellFormedDigest(bundle.checksum)
    requires Binds(template, bundle, options, desired) && !session.device.mode.rival && !options.cleanupOld
    requires old'.certificate != desired.certificate && old'.certificate != ""
    requires session.device.world == WorldWith(template, [old'])
    requires Managed(desired, bundle) && MetadataFits(session.device.world, desired, bundle)
    modifies session, session.device
    ensures started && session.watch.failures == 0 ==> SoleOldDecided(session, old', fault)
  {
    WorldSane(template, [old']);
    ghost var seen;
    result, fault, started, seen := SyncCertificate(session, Target(template, ""), bundle, options);
    if started && session.watch.failures == 0 {
      SoleOldEnds(session, old', bundle, fault);
    }
  }
}
