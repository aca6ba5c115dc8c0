/** Compensation after a failure: the uploads of this run are deleted, and after
    a failed save the template is brought back first. */
module Rollback {
  import opened Wrappers
  import opened Appliance
  import opened Monitor
  import opened Names
  import opened Sessions

  /** The uploads of one run; an empty name means not uploaded. */
  datatype Material = Material(certificate: string, key: string, chain: string) {
    predicate Empty() {
      certificate == "" && key == "" && chain == ""
    }

    function Certificates(): set<string> {
      {certificate, chain} - {""}
    }

    function Keys(): set<string> {
      {key} - {""}
    }

    predicate Sendable() {
      DeletionClean(certificate, key) && DeletionClean(chain, "")
    }
  }

  /** Why compensation did not complete. */
  datatype UndoFault =
    | UndoCallFailed       // a request or read of the rollback failed
    | ChangedBefore        // the template is no longer the state this run produced
    | DifferentBaseline    // the desired name was bound differently at the start
    | NotRestored          // the baseline did not come back
    | MaterialRemained     // an upload is still listed

  predicate Recorded(p: Progress, uploaded: Material) {
    p.mineCertificates == uploaded.Certificates() && p.mineKeys == uploaded.Keys()
  }

  /** No bind was sent, or the baseline seen restored after a failed save. */
  ghost predicate UndoTime(run: Run, p: Progress, v: View) {
    !p.bound || (p.save.Failed? && v.settled == Some(run.baseline))
  }

  ghost predicate Gone(v: View, uploaded: Material) {
    && v.certificates.Some? && v.keys.Some?
    && (forall name :: name in uploaded.Certificates() ==> name !in v.certificates.value)
    && (forall name :: name in uploaded.Keys() ==> name !in v.keys.value)
  }

  /** An upload is still listed. */
  predicate Remains(uploaded: Material, certificates: seq<string>, keys: seq<string>) {
    uploaded.certificate in certificates || uploaded.chain in certificates || uploaded.key in keys
  }

  predicate DeletionClean(certificate: string, key: string) {
    (certificate != "" ==> ValidFileName(certificate)) && (key != "" ==> ValidFileName(key))
  }

  /** Only deletions of own uploads and reads were sent since; bindings and saved
      configuration are untouched. */
  ghost predicate OnlyUndone(session: Session, watch: Watch, world: World)
    reads session, session.device
  {
    && session.watch.progress == watch.progress.(deleted := session.watch.progress.deleted)
    && session.watch.view.settled == watch.view.settled && session.watch.failures >= watch.failures
    && session.watch.diverged == watch.diverged && session.watch.unbound == watch.unbound
    && (session.sole ==>
          && session.device.world.running == world.running && session.device.world.saved == world.saved
          && session.device.world.certificates <= world.certificates && session.device.world.keys <= world.keys)
  }

  lemma DeletionUndoes(session: Session, watch: Watch, world: World, certificate: string, key: string, ok: bool)
    requires session.watch ==
      if DeletionSendable(certificate, key) then Next(session.run, watch, Deleted(true, certificate, key, ok))
        else watch
    requires session.sole ==>
      && session.device.world.running == world.running && session.device.world.saved == world.saved
      && session.device.world.certificates <= world.certificates && session.device.world.keys <= world.keys
    ensures OnlyUndone(session, watch, world)
  {
  }

  /** One deletion request of the undo; names that were not uploaded are empty. */
  method DeleteIfUploaded(session: Session, certificate: string, key: string) returns (ok: bool)
    requires session.Valid() && UndoPermitted(session.run, session.watch.progress, session.watch.view, certificate, key)
    modifies session`log, session`watch, session.device
    ensures session.Valid() && OnlyUndone(session, old(session.watch), old(session.device.world))
    ensures session.sole && ok ==> session.device.world.certificates !! Selected(certificate)
                                   && session.device.world.keys !! Selected(key)
    ensures DeletionClean(certificate, key) && session.watch.failures == old(session.watch.failures) ==> ok
  {
    ok := true;
    if certificate != "" || key != "" {
      ok := session.DeleteUploaded(certificate, key);
      DeletionUndoes(session, old(session.watch), old(session.device.world), certificate, key, ok);
    }
  }

  /** Deletes what was uploaded: the pair in one request, then the chain. */
  method DeleteMaterial(session: Session, uploaded: Material) returns (ok: bool)
    requires session.Valid() && Recorded(session.watch.progress, uploaded)
    requires UndoTime(session.run, session.watch.progress, session.watch.view)
    modifies session`log, session`watch, session.device
    ensures session.Valid() && OnlyUndone(session, old(session.watch), old(session.device.world))
    ensures session.sole && ok ==> session.device.world.certificates !! uploaded.Certificates()
                                   && session.device.world.keys !! uploaded.Keys()
    ensures uploaded.Sendable() && session.watch.failures == old(session.watch.failures) ==> ok
  {
    ok := DeleteIfUploaded(session, uploaded.certificate, uploaded.key);
    if ok {
      ok := DeleteIfUploaded(session, uploaded.chain, "");
    }
  }

  method RollbackUploadedMaterial(session: Session, uploaded: Material) returns (fault: Option<UndoFault>)
    requires session.Valid() && Recorded(session.watch.progress, uploaded)
    requires UndoTime(session.run, session.watch.progress, session.watch.view)
    modifies session`log, session`watch, session.device
    ensures session.Valid() && OnlyUndone(session, old(session.watch), old(session.device.world))
    ensures fault.None? ==> Gone(session.watch.view, uploaded)
    ensures session.sole && fault.None? ==> session.device.world.certificates !! uploaded.Certificates()
                                            && session.device.world.keys !! uploaded.Keys()
    ensures session.sole ==> fault != Some(MaterialRemained)
    ensures session.sole && uploaded.Sendable() && session.watch.failures == old(session.watch.failures) ==> fault.None?
  {
    var ok := DeleteMaterial(session, uploaded);
    if !ok {
      return Some(UndoCallFailed);
    }
    var certificates := session.ListCertificateFiles();
    if certificates.None? {
      return Some(UndoCallFailed);
    }
    var keys := session.ListKeyFiles();
    if keys.None? {
      return Some(UndoCallFailed);
    }
    fault := if Remains(uploaded, certificates.value, keys.value) then Some(MaterialRemained) else None;
  }
}
