/** Making the certificate, key and chain files available before the binding is
    touched: what is missing is uploaded, what is there must match. */
module Uploads {
  import opened Wrappers
  import opened Templates
  import opened Appliance
  import opened Monitor
  import opened Names
  import opened Collision
  import opened Sessions
  import opened Rollback
  import opened Targets
  import opened Checks

  datatype Inventories = Inventories(certificates: seq<string>, keys: seq<string>, infos: seq<CertificateInfo>)

  const NO_MATERIAL := Material("", "", "")

  /** The forward part before the bind, with these inventories listed. */
  ghost predicate Staging(session: Session, inventories: Inventories)
    reads session, session.device
  {
    && Forward(session) && !session.watch.progress.bound
    && session.watch.view.certificates == Some(inventories.certificates)
    && session.watch.view.keys == Some(inventories.keys)
  }

  /** The lists show the stores of a sole writer. */
  ghost predicate ListsStores(session: Session, inventories: Inventories)
    reads session, session.device
  {
    session.sole ==>
      && PresentsFiles(inventories.certificates, session.device.world.certificates)
      && PresentsFiles(inventories.keys, session.device.world.keys)
      && PresentsInfos(inventories.infos, session.device.world.infos)
  }

  method ReadInventories(session: Session) returns (r: Option<Inventories>)
    requires Forward(session) && !session.watch.progress.bound
    modifies session`log, session`watch, session.device
    ensures Forward(session) && session.watch.progress == old(session.watch.progress)
    ensures NoBindingSent(old(session.watch), session.watch)
    ensures session.sole ==> session.device.world == old(session.device.world)
    ensures r.Some? ==> Staging(session, r.value) && ListsStores(session, r.value)
    ensures session.watch.failures == old(session.watch.failures) ==> r.Some?
  {
    var certificates := session.ListCertificateFiles();
    if certificates.None? {
      return None;
    }
    var keys := session.ListKeyFiles();
    if keys.None? {
      return None;
    }
    var infos := session.ListCertificates();
    if infos.None? {
      return None;
    }
    r := Some(Inventories(certificates.value, keys.value, infos.value));
  }

  /** Uploads a certificate or chain file that is not listed; a listed one must
      carry the metadata of the certificate. */
  method StageCertificate(session: Session, name: string, certificate: Certificate, inventories: Inventories)
    returns (fault: Option<Fault>, staged: string)
    requires Staging(session, inventories)
    requires name != "" && (name == session.run.desired.certificate || name == session.run.desired.chain)
    modifies session`log, session`watch, session.device
    ensures Staging(session, inventories)
    ensures session.watch.progress ==
      old(session.watch.progress).(mineCertificates := old(session.watch.progress.mineCertificates) + Selected(staged))
    ensures NoBindingSent(old(session.watch), session.watch)
    ensures session.sole ==> session.device.world.running == old(session.device.world.running)
    ensures fault.None? ==> staged == if name in inventories.certificates then "" else name
    ensures fault.Some? ==> staged == ""
    ensures fault == Some(Collides) <==>
      name in inventories.certificates && !CollisionFree(inventories.infos, name, certificate)
    ensures fault.Some? && fault != Some(Collides) ==> fault == Some(CallFailed)
    ensures ValidFileName(name) && session.watch.failures == old(session.watch.failures) ==>
      fault.None? || fault == Some(Collides)
  {
    staged := "";
    fault := None;
    if name in inventories.certificates {
      if !CollisionFree(inventories.infos, name, certificate) {
        fault := Some(Collides);
      }
    } else {
      var ok := session.UploadCertificate(name);
      if ok {
        staged := name;
      } else {
        fault := Some(CallFailed);
      }
    }
  }

  method StageKey(session: Session, name: string, inventories: Inventories)
    returns (fault: Option<Fault>, staged: string)
    requires Staging(session, inventories) && name != "" && name == session.run.desired.key
    modifies session`log, session`watch, session.device
    ensures Staging(session, inventories)
    ensures session.watch.progress ==
      old(session.watch.progress).(mineKeys := old(session.watch.progress.mineKeys) + Selected(staged))
    ensures NoBindingSent(old(session.watch), session.watch)
    ensures session.sole ==> session.device.world.running == old(session.device.world.running)
    ensures fault.None? ==> staged == if name in inventories.keys then "" else name
    ensures fault.Some? ==> staged == "" && fault == Some(CallFailed)
    ensures ValidFileName(name) && session.watch.failures == old(session.watch.failures) ==> fault.None?
  {
    staged := "";
    fault := None;
    if name !in inventories.keys {
      var ok := session.UploadKey(name);
      if ok {
        staged := name;
      } else {
        fault := Some(CallFailed);
      }
    }
  }

  /** A managed entry names its files; a chain is named only if there is one. */
  predicate Managed(desired: Entry, bundle: Bundle) {
    desired.certificate != "" && desired.key != "" && (desired.chain != "" ==> bundle.chain != [])
  }

  function Missing(name: string, listed: seq<string>): string {
    if name in listed then "" else name
  }

  /** Exactly the files that are not listed. */
  function MissingMaterial(desired: Entry, inventories: Inventories): Material {
    Material(Missing(desired.certificate, inventories.certificates), Missing(desired.key, inventories.keys),
             Missing(desired.chain, inventories.certificates))
  }

  /** Nothing was sent but these uploads. */
  function SentOnly(uploaded: Material): Progress {
    NOTHING_SENT.(mineCertificates := uploaded.Certificates(), mineKeys := uploaded.Keys())
  }

  /** What staging keeps, and what it reports. */
  ghost predicate Staged(session: Session, inventories: Inventories, uploaded: Material, fault: Option<Fault>)
    reads session, session.device
  {
    && Staging(session, inventories) && session.watch.progress == SentOnly(uploaded)
    && (fault.Some? ==> fault == Some(CallFailed) || fault == Some(Collides))
  }

  predicate LeafFits(inventories: Inventories, desired: Entry, bundle: Bundle) {
    desired.certificate in inventories.certificates ==>
      CollisionFree(inventories.infos, desired.certificate, bundle.certificate)
  }

  predicate ChainFits(inventories: Inventories, desired: Entry, bundle: Bundle)
    requires Managed(desired, bundle)
  {
    desired.chain != "" && desired.chain in inventories.certificates ==>
      CollisionFree(inventories.infos, desired.chain, bundle.chain[0])
  }

  /** Whatever is listed under a managed name is the bundle's own certificate. */
  predicate NoCollision(inventories: Inventories, desired: Entry, bundle: Bundle)
    requires Managed(desired, bundle)
  {
    LeafFits(inventories, desired, bundle) && ChainFits(inventories, desired, bundle)
  }

  method UploadPair(session: Session, desired: Entry, bundle: Bundle, inventories: Inventories)
    returns (fault: Option<Fault>, uploaded: Material)
    requires Staged(session, inventories, NO_MATERIAL, None) && desired == session.run.desired
      && Managed(desired, bundle)
    modifies session`log, session`watch, session.device
    ensures Staged(session, inventories, uploaded, fault)
    ensures NoBindingSent(old(session.watch), session.watch)
    ensures session.sole ==> session.device.world.running == old(session.device.world.running)
    ensures uploaded.chain == ""
    ensures uploaded.certificate == "" || uploaded.certificate == desired.certificate
    ensures uploaded.key == "" || uploaded.key == desired.key
    ensures fault.None? ==> uploaded.certificate == Missing(desired.certificate, inventories.certificates)
                            && uploaded.key == Missing(desired.key, inventories.keys)
    ensures fault.None? ==> LeafFits(inventories, desired, bundle)
    ensures fault == Some(Collides) ==> !LeafFits(inventories, desired, bundle)
    ensures EntrySendable(desired) && session.watch.failures == old(session.watch.failures) ==>
      fault != Some(CallFailed)
  {
    uploaded := NO_MATERIAL;
    var staged;
    fault, staged := StageKey(session, desired.key, inventories);
    uploaded := uploaded.(key := staged);
    if fault.None? {
      fault, staged := StageCertificate(session, desired.certificate, bundle.certificate, inventories);
      uploaded := uploaded.(certificate := staged);
    }
  }

  method UploadMaterial(session: Session, desired: Entry, bundle: Bundle, inventories: Inventories)
    returns (fault: Option<Fault>, uploaded: Material)
    requires Staged(session, inventories, NO_MATERIAL, None) && desired == session.run.desired
      && Managed(desired, bundle)
    modifies session`log, session`watch, session.device
    ensures Staged(session, inventories, uploaded, fault)
    ensures NoBindingSent(old(session.watch), session.watch)
    ensures session.sole ==> session.device.world.running == old(session.device.world.running)
    ensures fault.None? ==> uploaded == MissingMaterial(desired, inventories)
    ensures fault.None? ==> NoCollision(inventories, desired, bundle)
    ensures fault == Some(Collides) ==> !NoCollision(inventories, desired, bundle)
    ensures EntrySendable(desired) ==> uploaded.Sendable()
    ensures EntrySendable(desired) && session.watch.failures == old(session.watch.failures) ==>
      fault != Some(CallFailed)
  {
    fault, uploaded := UploadPair(session, desired, bundle, inventories);
    if fault.None? && desired.chain != "" {
      var staged;
      fault, staged := StageCertificate(session, desired.chain, bundle.chain[0], inventories);
      uploaded := uploaded.(chain := staged);
    }
  }

  /** With nothing missing that was not uploaded, the entry may be bound. */
  lemma MaterialIsReady(run: Run, p: Progress, v: View, inventories: Inventories, uploaded: Material)
    requires v.certificates == Some(inventories.certificates) && v.keys == Some(inventories.keys)
    requires Recorded(p, uploaded) && uploaded == MissingMaterial(run.desired, inventories)
    requires run.desired.certificate != "" && run.desired.key != ""
    ensures MaterialReady(run, p, v)
  {
  }

  /** Every managed file that already exists is described as the bundle's own. */
  predicate MetadataFits(world: World, desired: Entry, bundle: Bundle)
    requires Managed(desired, bundle)
  {
    && DescribedAs(world, desired.certificate, bundle.certificate)
    && (desired.chain != "" ==> DescribedAs(world, desired.chain, bundle.chain[0]))
  }

  predicate DescribedAs(world: World, name: string, certificate: Certificate) {
    name in world.certificates ==>
      name in world.infos && world.infos[name].name == name && SameCertificate(world.infos[name], certificate)
  }

  lemma DescribedIsFree(world: World, inventories: Inventories, name: string, certificate: Certificate)
    requires PresentsFiles(inventories.certificates, world.certificates)
      && PresentsInfos(inventories.infos, world.infos)
    requires name in inventories.certificates
    ensures DescribedAs(world, name, certificate) <==> CollisionFree(inventories.infos, name, certificate)
  {
    if CollisionFree(inventories.infos, name, certificate) {
      CollisionFreeFinds(inventories.infos, name, certificate);
    }
    if name in world.infos {
      CollisionFreeExactly(inventories.infos, name, certificate, world.infos[name]);
    }
  }

  /** The metadata in the stores fits exactly if the lists show no collision. */
  lemma FitsIsFree(world: World, inventories: Inventories, desired: Entry, bundle: Bundle)
    requires PresentsFiles(inventories.certificates, world.certificates)
      && PresentsInfos(inventories.infos, world.infos)
    requires Managed(desired, bundle)
    ensures MetadataFits(world, desired, bundle) <==> NoCollision(inventories, desired, bundle)
  {
    if desired.certificate in inventories.certificates {
      DescribedIsFree(world, inventories, desired.certificate, bundle.certificate);
    }
    if desired.chain != "" && desired.chain in inventories.certificates {
      DescribedIsFree(world, inventories, desired.chain, bundle.chain[0]);
    }
  }

  /** Reads the inventories and uploads what is missing. */
  method StageMaterial(session: Session, desired: Entry, bundle: Bundle)
    returns (fault: Option<Fault>, uploaded: Material)
    requires Forward(session) && session.watch.progress == NOTHING_SENT
    requires desired == session.run.desired && Managed(desired, bundle) && EntrySendable(desired)
    modifies session`log, session`watch, session.device
    ensures Forward(session) && session.watch.progress == SentOnly(uploaded)
    ensures NoBindingSent(old(session.watch), session.watch)
    ensures uploaded.Sendable()
    ensures session.sole ==> session.device.world.running == old(session.device.world.running)
    ensures fault.None? ==> MaterialReady(session.run, session.watch.progress, session.watch.view)
    ensures fault.Some? ==> fault == Some(CallFailed) || fault == Some(Collides)
    ensures fault == Some(CallFailed) ==> session.watch.failures > old(session.watch.failures)
    ensures session.sole && fault.None? ==> MetadataFits(old(session.device.world), desired, bundle)
    ensures session.sole && fault == Some(Collides) ==> !MetadataFits(old(session.device.world), desired, bundle)
  {
    uploaded := NO_MATERIAL;
    var inventories := ReadInventories(session);
    if inventories.None? {
      return Some(CallFailed), uploaded;
    }
    if session.sole {
      FitsIsFree(session.device.world, inventories.value, desired, bundle);
    }
    fault, uploaded := UploadMaterial(session, desired, bundle, inventories.value);
    if fault.None? {
      MaterialIsReady(session.run, session.watch.progress, session.watch.view, inventories.value, uploaded);
    }
  }
}
