/** Pre-staging of a managed pair that no template uses yet: all of it or nothing. */
module PreStaging {
  import opened Wrappers
  import opened Templates
  import opened Appliance
  import opened Monitor
  import opened Names
  import opened Collision
  import opened Rollback
  import opened Targets
  import opened Checks
  import opened Uploads
  import opened Sync

  datatype CreateOptions = CreateOptions(namePrefix: string, noWriteMemory: bool)

  datatype CreateResult = CreateResult(
    stage: Stage, changed: bool, uploaded: bool, wroteMemory: bool, rolledBack: bool, names: Option<ManagedNames>)

  // ---- what a call may do, whoever else writes ----

  predicate Uploaded(calls: seq<Event>, certificate: string, key: string) {
    && (certificate != "" ==> UploadedCertificate(certificate, true) in calls)
    && (key != "" ==> UploadedKey(key, true) in calls)
  }

  /** Deletions name only files that an earlier call has uploaded. */
  predicate OwnDeletions(calls: seq<Event>) {
    forall i :: 0 <= i < |calls| && calls[i].Deleted? ==> Uploaded(calls[..i], calls[i].certificate, calls[i].key)
  }

  predicate Accounted(calls: seq<Event>, uploaded: Material) {
    && Uploaded(calls, uploaded.certificate, uploaded.key) && Uploaded(calls, uploaded.chain, "")
    && OwnDeletions(calls)
  }

  /** No call failed. */
  predicate NoFailure(calls: seq<Event>) {
    forall i :: 0 <= i < |calls| ==> Succeeded(calls[i])
  }

  lemma AccountedMore(calls: seq<Event>, uploaded: Material, event: Event, more: Material)
    requires Accounted(calls, uploaded)
    requires event.Deleted? ==> Uploaded(calls, event.certificate, event.key)
    requires more.certificate == uploaded.certificate || event == UploadedCertificate(more.certificate, true)
    requires more.key == uploaded.key || event == UploadedKey(more.key, true)
    requires more.chain == uploaded.chain || event == UploadedCertificate(more.chain, true)
    ensures Accounted(calls + [event], more) && (NoFailure(calls + [event]) <==> NoFailure(calls) && Succeeded(event))
  {
    var longer := calls + [event];
    assert longer[|calls|] == event && forall i :: 0 <= i < |calls| ==> longer[i] == calls[i];
    forall i | 0 <= i < |longer| && longer[i].Deleted?
      ensures Uploaded(longer[..i], longer[i].certificate, longer[i].key)
    {
      assert longer[..i] == if i < |calls| then calls[..i] else calls;
    }
  }

  // ---- what it does when nobody else writes ----

  /** Only these files were added; a failed upload may have left its own. */
  ghost predicate Grown(mode: Mode, before: World, after: World, uploaded: Material) {
    !mode.rival ==>
      && after.running == before.running
      && before.certificates + uploaded.Certificates() <= after.certificates
      && before.keys + uploaded.Keys() <= after.keys
      && uploaded.Certificates() !! before.certificates && uploaded.Keys() !! before.keys
      && (!mode.lossyUpload ==>
            && after.certificates == before.certificates + uploaded.Certificates()
            && after.keys == before.keys + uploaded.Keys())
  }

  ghost predicate Lists(mode: Mode, world: World, inventories: Inventories) {
    !mode.rival ==>
      && PresentsFiles(inventories.certificates, world.certificates)
      && PresentsFiles(inventories.keys, world.keys)
      && PresentsInfos(inventories.infos, world.infos)
  }

  /** The calls with a read or a save appended. */
  ghost function Noted(calls: seq<Event>, uploaded: Material, event: Event): (longer: seq<Event>)
    requires Accounted(calls, uploaded) && !event.Deleted?
    ensures Accounted(longer, uploaded) && (NoFailure(longer) <==> NoFailure(calls) && Succeeded(event))
    ensures |longer| == |calls| + 1
  {
    AccountedMore(calls, uploaded, event, uploaded);
    calls + [event]
  }

  /** Uploads a certificate or chain file that is not listed; a listed one must
      carry the metadata of the certificate. */
  method StageFile(device: Device, name: string, certificate: Certificate, inventories: Inventories)
    returns (fault: Option<Fault>, staged: string, ghost call: Option<Event>)
    requires name != ""
    modifies device
    ensures staged != "" ==>
      staged == name && name !in inventories.certificates && call == Some(UploadedCertificate(name, true))
    ensures call.Some? ==> call.value.UploadedCertificate?
    ensures device.calls == old(device.calls) + (if call.Some? then 1 else 0)
    ensures fault.None? <==>
      (name in inventories.certificates && CollisionFree(inventories.infos, name, certificate)) || staged == name
    ensures fault.Some? ==> fault == Some(if name in inventories.certificates then Collides else CallFailed)
    ensures fault == Some(CallFailed) ==> call.Some? && !Succeeded(call.value)
    ensures !device.mode.rival ==>
      device.world == old(device.world) || UploadCertificateEffect(old(device.world), device.world, name)
    ensures !device.mode.rival && staged != "" ==> UploadCertificateEffect(old(device.world), device.world, name)
    ensures !device.mode.rival && !device.mode.lossyUpload && staged == "" ==> device.world == old(device.world)
  {
    fault, staged, call := None, "", None;
    if name in inventories.certificates {
      if !CollisionFree(inventories.infos, name, certificate) {
        fault := Some(Collides);
      }
    } else {
      var ok := device.UploadCertificate(name);
      call := Some(UploadedCertificate(name, ok));
      if ok {
        staged := name;
      } else {
        fault := Some(CallFailed);
      }
    }
  }

  lemma CertificateGrown(mode: Mode, start: World, before: World, after: World, uploaded: Material, more: Material,
      staged: string)
    requires Grown(mode, start, before, uploaded)
    requires more.Keys() == uploaded.Keys() && more.Certificates() == uploaded.Certificates() + Selected(staged)
    requires !mode.rival && staged != "" ==>
      staged !in start.certificates && UploadCertificateEffect(before, after, staged)
    requires !mode.rival && staged == "" ==>
      before.certificates <= after.certificates && after.keys == before.keys && after.running == before.running
    requires !mode.rival && !mode.lossyUpload && staged == "" ==> after == before
    ensures Grown(mode, start, after, more)
  {
  }

  lemma KeyGrown(mode: Mode, start: World, before: World, after: World, uploaded: Material, more: Material,
      staged: string)
    requires Grown(mode, start, before, uploaded)
    requires more.Certificates() == uploaded.Certificates() && more.Keys() == uploaded.Keys() + Selected(staged)
    requires !mode.rival && staged != "" ==> staged !in start.keys && after == before.(keys := before.keys + {staged})
    requires !mode.rival && staged == "" ==>
      before.keys <= after.keys && after.certificates == before.certificates && after.running == before.running
    requires !mode.rival && !mode.lossyUpload && staged == "" ==> after == before
    ensures Grown(mode, start, after, more)
  {
  }

  /** What the uploads so far amount to. */
  ghost predicate Progressed(device: Device, start: World, uploaded: Material, calls: seq<Event>)
    reads device
  {
    Grown(device.mode, start, device.world, uploaded) && Accounted(calls, uploaded)
  }

  method StageKeyFile(device: Device, name: string, inventories: Inventories, ghost start: World,
      ghost earlier: seq<Event>)
    returns (fault: Option<Fault>, uploaded: Material, ghost calls: seq<Event>)
    requires Accounted(earlier, NO_MATERIAL) && name != "" && Lists(device.mode, start, inventories)
      && (!device.mode.rival ==> device.world == start)
    modifies device
    ensures device.calls - old(device.calls) == |calls| - |earlier| && earlier <= calls
    ensures Progressed(device, start, uploaded, calls)
    ensures uploaded == NO_MATERIAL.(key := uploaded.key)
    ensures NoFailure(calls) ==> NoFailure(earlier) && fault.None?
    ensures fault.None? ==> uploaded.key == Missing(name, inventories.keys)
    ensures fault.Some? ==> uploaded.key == "" && fault == Some(CallFailed)
  {
    fault, uploaded, calls := None, NO_MATERIAL, earlier;
    if name !in inventories.keys {
      var ok := device.UploadKey(name);
      ghost var event := UploadedKey(name, ok);
      if ok {
        uploaded := uploaded.(key := name);
      } else {
        fault := Some(CallFailed);
      }
      AccountedMore(calls, NO_MATERIAL, event, uploaded);
      calls := calls + [event];
      KeyGrown(device.mode, start, start, device.world, NO_MATERIAL, uploaded, uploaded.key);
    }
  }

  datatype Part = Leaf | Chain

  function With(uploaded: Material, part: Part, staged: string): Material {
    match part
    case Leaf => uploaded.(certificate := staged)
    case Chain => uploaded.(chain := staged)
  }

  /** One more certificate file of the bundle. */
  method StageNext(device: Device, name: string, certificate: Certificate, part: Part, inventories: Inventories,
      before: Material, ghost start: World, ghost earlier: seq<Event>)
    returns (fault: Option<Fault>, uploaded: Material, ghost calls: seq<Event>)
    requires name != "" && Lists(device.mode, start, inventories) && Progressed(device, start, before, earlier)
    requires With(before, part, "") == before
    modifies device
    ensures device.calls - old(device.calls) == |calls| - |earlier|
    ensures Progressed(device, start, uploaded, calls) && earlier <= calls
    ensures exists staged :: uploaded == With(before, part, staged) && (staged == "" || staged == name)
    ensures fault.None? ==> uploaded == With(before, part, Missing(name, inventories.certificates))
    ensures fault.Some? ==> uploaded == before && (fault == Some(CallFailed) || fault == Some(Collides))
    ensures fault == Some(Collides) ==>
      name in inventories.certificates && !CollisionFree(inventories.infos, name, certificate)
    ensures NoFailure(calls) ==> NoFailure(earlier) && fault != Some(CallFailed)
    ensures fault.None? && name in inventories.certificates ==> CollisionFree(inventories.infos, name, certificate)
  {
    var staged;
    ghost var call;
    ghost var previous := device.world;
    fault, staged, call := StageFile(device, name, certificate, inventories);
    uploaded, calls := With(before, part, staged), earlier;
    if call.Some? {
      AccountedMore(earlier, before, call.value, uploaded);
      calls := earlier + [call.value];
    }
    CertificateGrown(device.mode, start, previous, device.world, before, uploaded, staged);
  }

  /** Uploads what is missing, key first, and stops at the first failure. */
  method UploadAll(device: Device, names: ManagedNames, bundle: Bundle, inventories: Inventories, ghost start: World,
      ghost earlier: seq<Event>)
    returns (fault: Option<Fault>, uploaded: Material, ghost calls: seq<Event>)
    requires Accounted(earlier, NO_MATERIAL) && names.name != "" && (names.chainName != "" ==> bundle.chain != [])
    requires Lists(device.mode, start, inventories) && (!device.mode.rival ==> device.world == start)
    modifies device
    ensures device.calls - old(device.calls) == |calls| - |earlier| && earlier <= calls
    ensures Progressed(device, start, uploaded, calls)
    ensures NoFailure(calls) ==> NoFailure(earlier) && fault != Some(CallFailed)
    ensures fault.None? ==>
      uploaded == MissingMaterial(Files(names), inventories) && NoCollision(inventories, Files(names), bundle)
    ensures fault.Some? ==>
      fault == Some(CallFailed) || (fault == Some(Collides) && !NoCollision(inventories, Files(names), bundle))
  {
    fault, uploaded, calls := StageKeyFile(device, names.name, inventories, start, earlier);
    if fault.None? {
      fault, uploaded, calls := StageNext(device, names.name, bundle.certificate, Leaf, inventories, uploaded, start,
                                          calls);
    }
    if fault.None? && names.chainName != "" {
      fault, uploaded, calls := StageNext(device, names.chainName, bundle.chain[0], Chain, inventories, uploaded,
                                          start, calls);
    }
  }

  // ---- taking it back ----

  /** The files of the start survive; configurations are untouched. */
  ghost predicate StartSurvives(mode: Mode, start: World, before: World, after: World) {
    !mode.rival ==>
      && after == before.(certificates := after.certificates, keys := after.keys)
      && start.certificates <= after.certificates <= before.certificates && start.keys <= after.keys <= before.keys
  }

  /** One deletion request; names that were not uploaded are empty. */
  method DeleteFiles(device: Device, certificate: string, key: string, uploaded: Material, ghost start: World,
      ghost earlier: seq<Event>)
    returns (ok: bool, ghost calls: seq<Event>)
    requires Accounted(earlier, uploaded)
    requires certificate in {"", uploaded.certificate, uploaded.chain} && key in {"", uploaded.key}
    requires !device.mode.rival ==>
      && start.certificates <= device.world.certificates && start.keys <= device.world.keys
      && uploaded.Certificates() !! start.certificates && uploaded.Keys() !! start.keys
    modifies device
    ensures device.calls - old(device.calls) == |calls| - |earlier|
    ensures Accounted(calls, uploaded) && earlier <= calls
    ensures NoFailure(calls) ==> NoFailure(earlier) && ok
    ensures StartSurvives(device.mode, start, old(device.world), device.world)
    ensures !device.mode.rival && ok ==>
      device.world.certificates !! Selected(certificate) && device.world.keys !! Selected(key)
  {
    ok, calls := true, earlier;
    if certificate != "" || key != "" {
      ok := device.Delete(certificate, key);
      AccountedMore(earlier, uploaded, Deleted(true, certificate, key, ok), uploaded);
      calls := earlier + [Deleted(true, certificate, key, ok)];
    }
  }

  method UndoUploads(device: Device, uploaded: Material, ghost start: World, ghost earlier: seq<Event>)
    returns (fault: Option<UndoFault>, ghost calls: seq<Event>)
    requires Progressed(device, start, uploaded, earlier)
    modifies device
    ensures device.calls - old(device.calls) == |calls| - |earlier|
    ensures Accounted(calls, uploaded) && (NoFailure(calls) ==> NoFailure(earlier))
    ensures NoFailure(calls) && fault.Some? ==> fault == Some(MaterialRemained)
    ensures StartSurvives(device.mode, start, old(device.world), device.world)
    ensures !device.mode.rival && !device.mode.lossyUpload && fault.None? ==>
      device.world.certificates == start.certificates && device.world.keys == start.keys
    ensures !device.mode.rival ==> fault != Some(MaterialRemained)
  {
    var ok;
    ok, calls := DeleteFiles(device, uploaded.certificate, uploaded.key, uploaded, start, earlier);
    if !ok {
      return Some(UndoCallFailed), calls;
    }
    ok, calls := DeleteFiles(device, uploaded.chain, "", uploaded, start, calls);
    if !ok {
      return Some(UndoCallFailed), calls;
    }
    var certificates := device.ListCertificates();
    calls := Noted(calls, uploaded, ListedCertificates(certificates));
    if certificates.None? {
      return Some(UndoCallFailed), calls;
    }
    var keys := device.ListKeys();
    calls := Noted(calls, uploaded, ListedKeys(keys));
    if keys.None? {
      return Some(UndoCallFailed), calls;
    }
    fault := if Remains(uploaded, certificates.value, keys.value) then Some(MaterialRemained) else None;
  }

  // ---- the operation ----

  function Files(names: ManagedNames): Entry {
    Entry(names.name, names.name, names.chainName, false)
  }

  /** Every managed file exists, every earlier file still exists, and nothing else
      was added. */
  ghost predicate AllStaged(mode: Mode, start: World, world: World, names: ManagedNames) {
    !mode.rival ==>
      && world.running == start.running
      && names.name in world.keys && names.name in world.certificates
      && (names.chainName != "" ==> names.chainName in world.certificates)
      && start.certificates <= world.certificates && start.keys <= world.keys
      && (!mode.lossyUpload ==>
            && world.certificates <= start.certificates + {names.name, names.chainName}
            && world.keys <= start.keys + {names.name})
  }

  lemma StagedAll(mode: Mode, start: World, world: World, names: ManagedNames, inventories: Inventories,
      uploaded: Material)
    requires Grown(mode, start, world, uploaded) && Lists(mode, start, inventories) && names.name != ""
    requires uploaded == MissingMaterial(Files(names), inventories)
    ensures AllStaged(mode, start, world, names)
  {
  }

  /** The inventories were listed by these calls. */
  predicate Inspected(calls: seq<Event>, inventories: Inventories) {
    && ListedCertificates(Some(inventories.certificates)) in calls && ListedKeys(Some(inventories.keys)) in calls
    && ListedInfos(Some(inventories.infos)) in calls
  }

  /** A call has uploaded the file, or listings have shown it with fitting metadata. */
  ghost predicate Shown(calls: seq<Event>, name: string, certificate: Certificate) {
    || UploadedCertificate(name, true) in calls
    || exists inventories ::
         Inspected(calls, inventories) && name in inventories.certificates
           && CollisionFree(inventories.infos, name, certificate)
  }

  ghost predicate KeyShown(calls: seq<Event>, name: string) {
    || UploadedKey(name, true) in calls
    || exists inventories :: Inspected(calls, inventories) && name in inventories.keys
  }

  /** Whoever else writes: every managed file was uploaded or seen to be there. */
  ghost predicate AllShown(calls: seq<Event>, names: ManagedNames, bundle: Bundle)
    requires names.chainName != "" ==> bundle.chain != []
  {
    && KeyShown(calls, names.name) && Shown(calls, names.name, bundle.certificate)
    && (names.chainName != "" ==> Shown(calls, names.chainName, bundle.chain[0]))
  }

  lemma ShownAll(calls: seq<Event>, names: ManagedNames, bundle: Bundle, inventories: Inventories, uploaded: Material)
    requires names.name != "" && (names.chainName != "" ==> bundle.chain != [])
    requires Inspected(calls, inventories) && Accounted(calls, uploaded)
    requires uploaded == MissingMaterial(Files(names), inventories) && NoCollision(inventories, Files(names), bundle)
    ensures AllShown(calls, names, bundle)
  {
  }

  /** The stores are as they were before the call. */
  ghost predicate Unstaged(mode: Mode, start: World, world: World) {
    !mode.rival ==>
      && world.running == start.running
      && start.certificates <= world.certificates && start.keys <= world.keys
      && (!mode.lossyUpload ==> world.certificates == start.certificates && world.keys == start.keys)
  }

  /** Deletes the uploads of a failed call and, if a save was tried, saves the
      cleaned state. */
  method TakeBack(device: Device, uploaded: Material, attempted: bool, cause: Fault, ghost start: World,
      ghost earlier: seq<Event>)
    returns (fault: Fault, ghost calls: seq<Event>)
    requires Progressed(device, start, uploaded, earlier)
    modifies device
    ensures device.calls - old(device.calls) == |calls| - |earlier|
    ensures OwnDeletions(calls) && (NoFailure(calls) ==> NoFailure(earlier))
    ensures NoFailure(calls) && !device.mode.rival ==> fault == cause
    ensures !device.mode.rival ==> start.certificates <= device.world.certificates && start.keys <= device.world.keys
    ensures fault == cause || (fault.RollbackFailed? && fault.cause == cause)
    ensures fault == cause && !cause.RollbackFailed? ==> Unstaged(device.mode, start, device.world)
    ensures fault == cause && !cause.RollbackFailed? && attempted && !device.mode.rival ==>
      device.world.saved == device.world.running
  {
    var undo;
    undo, calls := UndoUploads(device, uploaded, start, earlier);
    if undo.Some? {
      return RollbackFailed(cause, undo.value), calls;
    }
    fault := cause;
    if attempted {
      var ok := device.WriteMemory();
      calls := Noted(calls, uploaded, Saved(ok));
      if !ok {
        fault := RollbackFailed(cause, UndoCallFailed);
      }
    }
  }

  method ReadStores(device: Device, ghost earlier: seq<Event>) returns (r: Option<Inventories>, ghost calls: seq<Event>)
    requires Accounted(earlier, NO_MATERIAL)
    modifies device
    ensures device.calls - old(device.calls) == |calls| - |earlier|
    ensures Accounted(calls, NO_MATERIAL) && (NoFailure(calls) ==> r.Some?)
    ensures !device.mode.rival ==> device.world == old(device.world)
    ensures r.Some? ==> Lists(device.mode, device.world, r.value) && Inspected(calls, r.value)
  {
    r, calls := None, earlier;
    var certificates := device.ListCertificates();
    calls := Noted(calls, NO_MATERIAL, ListedCertificates(certificates));
    if certificates.None? {
      return;
    }
    var keys := device.ListKeys();
    calls := Noted(calls, NO_MATERIAL, ListedKeys(keys));
    if keys.None? {
      return;
    }
    var infos := device.ListInfos();
    calls := Noted(calls, NO_MATERIAL, ListedInfos(infos));
    if infos.Some? {
      r := Some(Inventories(certificates.value, keys.value, infos.value));
    }
  }

  /** Saves the uploads, if there are any and saving is not switched off. */
  method SaveStaged(device: Device, uploaded: Material, staged: CreateResult, options: CreateOptions,
      ghost start: World, ghost earlier: seq<Event>)
    returns (result: CreateResult, attempted: bool, fault: Option<Fault>, ghost calls: seq<Event>)
    requires Progressed(device, start, uploaded, earlier) && !staged.wroteMemory
    modifies device
    ensures device.calls - old(device.calls) == |calls| - |earlier| && earlier <= calls
    ensures Progressed(device, start, uploaded, calls)
    ensures !device.mode.rival ==> device.world == old(device.world).(saved := device.world.saved)
    ensures result == staged.(wroteMemory := result.wroteMemory, stage := result.stage)
    ensures attempted <==> staged.changed && !options.noWriteMemory
    ensures fault == if attempted && !result.wroteMemory then Some(SaveFault) else None
    ensures result.wroteMemory ==> attempted && (!device.mode.rival ==> device.world.saved == device.world.running)
    ensures NoFailure(calls) ==> NoFailure(earlier) && fault.None?
  {
    result, attempted, fault, calls := staged, false, None, earlier;
    if staged.changed && !options.noWriteMemory {
      attempted := true;
      var ok := device.WriteMemory();
      calls := Noted(calls, uploaded, Saved(ok));
      if ok {
        result := result.(wroteMemory := true, stage := PersistedStage);
      } else {
        fault := Some(SaveFault);
      }
    }
  }

  /** With nobody else writing, a call gets past the uploads only if every managed
      file that exists is described as the bundle's, and reports a collision only if
      one is not. */
  ghost predicate Weighed(mode: Mode, start: World, names: ManagedNames, bundle: Bundle, fault: Option<Fault>)
    requires Managed(Files(names), bundle)
  {
    !mode.rival ==>
      && (fault.None? ==> MetadataFits(start, Files(names), bundle))
      && (fault == Some(Collides) ==> !MetadataFits(start, Files(names), bundle))
  }

  /** From the inventories to the save; a failure after an upload is compensated. */
  method PreStage(device: Device, names: ManagedNames, bundle: Bundle, options: CreateOptions, before: CreateResult,
      ghost earlier: seq<Event>)
    returns (result: CreateResult, fault: Option<Fault>, ghost calls: seq<Event>)
    requires names.name != "" && (names.chainName != "" ==> bundle.chain != [])
    requires Accounted(earlier, NO_MATERIAL)
    requires !before.changed && !before.uploaded && !before.wroteMemory && !before.rolledBack
    modifies device
    ensures device.calls - old(device.calls) == |calls| - |earlier|
    ensures OwnDeletions(calls) && result.names == before.names
    ensures NoFailure(calls) && !device.mode.rival && fault.Some? ==> fault == Some(Collides)
    ensures fault.Some? ==> fault.value.RollbackFailed? || fault.value in {CallFailed, Collides, SaveFault}
    ensures Weighed(device.mode, old(device.world), names, bundle, fault)
    ensures !device.mode.rival ==>
      old(device.world.certificates) <= device.world.certificates && old(device.world.keys) <= device.world.keys
    ensures fault.None? ==>
      && AllStaged(device.mode, old(device.world), device.world, names) && AllShown(calls, names, bundle)
      && result.stage == Complete && !result.rolledBack && result.uploaded == result.changed
      && result.wroteMemory == (result.changed && !options.noWriteMemory)
      && (result.wroteMemory && !device.mode.rival ==> device.world.saved == device.world.running)
    ensures fault.Some? && !fault.value.RollbackFailed? ==>
      && Unstaged(device.mode, old(device.world), device.world)
      && result.rolledBack == result.uploaded
      && (fault == Some(SaveFault) && !device.mode.rival ==> device.world.saved == device.world.running)
  {
    ghost var start := device.world;
    result := before;
    var inventories;
    inventories, calls := ReadStores(device, earlier);
    if inventories.None? {
      fault := Some(CallFailed);
      return;
    }
    if !device.mode.rival {
      FitsIsFree(start, inventories.value, Files(names), bundle);
    }
    var uploaded;
    fault, uploaded, calls := UploadAll(device, names, bundle, inventories.value, start, calls);
    result := result.(uploaded := !uploaded.Empty(), changed := !uploaded.Empty());
    var attempted := false;
    if fault.None? {
      result, attempted, fault, calls := SaveStaged(device, uploaded, result.(stage := MaterialStaged), options, start,
                                                    calls);
    }
    if fault.None? {
      result := result.(stage := Complete);
      StagedAll(device.mode, start, device.world, names, inventories.value, uploaded);
      ShownAll(calls, names, bundle, inventories.value, uploaded);
    } else if !uploaded.Empty() {
      var compensated;
      compensated, calls := TakeBack(device, uploaded, attempted, fault.value, start, calls);
      if compensated == fault.value {
        result := result.(rolledBack := true, stage := RolledBackStage);
      }
      fault := Some(compensated);
    }
  }

  /** Uploads a managed pair without touching a template. */
  method CreateManagedCertificate(device: Device, bundle: Bundle, options: CreateOptions)
    returns (result: CreateResult, fault: Option<Fault>, ghost calls: seq<Event>)
    requires bundle.valid ==> WellFormedDigest(bundle.checksum)
    modifies device
    ensures device.calls == old(device.calls) + |calls|
    ensures OwnDeletions(calls)
    ensures !bundle.valid <==> fault == Some(Invalid)
    ensures fault.None? || fault == Some(Collides) ==>
      && result.names.Some? && Managed(Files(result.names.value), bundle)
      && Weighed(device.mode, old(device.world), result.names.value, bundle, fault)
    ensures fault == Some(Naming) ==> NamesForPrefix(bundle.checksum, bundle.chain != [], options.namePrefix).None?
    ensures NoFailure(calls) && !device.mode.rival && fault.Some? ==> fault.value in {Invalid, Naming, Collides}
    ensures !device.mode.rival ==>
      old(device.world.certificates) <= device.world.certificates && old(device.world.keys) <= device.world.keys
    ensures fault.None? ==>
      && result.names == NamesForPrefix(bundle.checksum, bundle.chain != [], options.namePrefix) && result.names.Some?
      && (result.names.value.chainName != "" ==> bundle.chain != [])
      && AllStaged(device.mode, old(device.world), device.world, result.names.value)
      && AllShown(calls, result.names.value, bundle)
      && result.stage == Complete && result.wroteMemory == (result.changed && !options.noWriteMemory)
      && (result.wroteMemory && !device.mode.rival ==> device.world.saved == device.world.running)
    ensures fault.Some? && !fault.value.IsAmbiguous() ==>
      && Unstaged(device.mode, old(device.world), device.world)
      && result.rolledBack == result.uploaded
      && (fault == Some(SaveFault) && !device.mode.rival ==> device.world.saved == device.world.running)
  {
    result, calls := CreateResult(Started, false, false, false, false, None), [];
    if !bundle.valid {
      fault := Some(Invalid);
      return;
    }
    var ok := device.CheckVersion();
    calls := Noted([], NO_MATERIAL, CheckedVersion(ok));
    if !ok {
      fault := Some(Unsupported);
      return;
    }
    result := result.(stage := CompatibilityVerified);
    var names := NamesForPrefix(bundle.checksum, bundle.chain != [], options.namePrefix);
    if names.None? {
      fault := Some(Naming);
      return;
    }
    ManagedNamesValid(bundle.checksum, bundle.chain != [], options.namePrefix);
    result := result.(names := names);
    result, fault, calls := PreStage(device, names.value, bundle, options, result, calls);
  }
}
