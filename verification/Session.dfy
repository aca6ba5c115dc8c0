/** An authenticated session: the typed requests, and the journal of what was
    sent. A request with a name that cannot be sent fails without a call. */
module Sessions {
  import opened Wrappers
  import opened Templates
  import opened Revision
  import opened Contents
  import opened Appliance
  import opened Monitor
  import opened Safety
  import opened Names

  /** The names of an entry can be sent; a chain is optional. */
  predicate EntrySendable(entry: Entry) {
    && ValidFileName(entry.certificate) && ValidFileName(entry.key)
    && (entry.chain != "" ==> ValidFileName(entry.chain))
  }

  predicate BindingSendable(binding: Binding) {
    EntrySendable(binding.Logical())
  }

  predicate DeletionSendable(certificate: string, key: string) {
    && (certificate != "" || key != "")
    && (certificate != "" ==> ValidFileName(certificate))
    && (key != "" ==> ValidFileName(key))
  }

  class Session {
    const device: Device
    /** The synchronization in progress, its calls, and what they showed. */
    ghost var run: Run
    /** Nobody else writes, and the run started from a resolved configuration. */
    ghost var sole: bool
    ghost var log: seq<Step>
    ghost var watch: Watch
    /** How many calls the appliance had received when the run began. */
    ghost var callsBefore: nat

    constructor (device: Device)
      ensures this.device == device
    {
      this.device := device;
    }

    /** Every call of the run is in the journal and was justified; with a sole
        writer the appliance was safe after each, what was read is true, and as
        long as only reads were sent nothing has changed. */
    ghost predicate Valid()
      reads this, device
    {
      && Journalled(run, log, watch, sole) && device.calls == callsBefore + |log|
      && (sole ==> !device.mode.rival && Kept(run, device.world, watch.progress, watch.view))
      && (sole && watch.requests == 0 ==> device.world == run.start)
      && Constant()
    }

    /** What never changes during a run. */
    ghost predicate Constant()
      reads this
    {
      && run.exact == !device.mode.lossyUpload && run.keepsSaved == !device.mode.lossySave
      && ValidTemplateName(run.name) && Planned(run)
    }

    /** The content of the run's template on the appliance. */
    ghost function Actual(): Content
      reads this, device
    {
      if run.name in device.world.running.clients then SlotContent(run.name, device.world.running.clients[run.name])
      else run.baseline
    }

    /** Starts the journal of a run. */
    ghost method Begin(run: Run, sole: bool)
      requires Planned(run) && ValidTemplateName(run.name)
      requires run.exact == !device.mode.lossyUpload && run.keepsSaved == !device.mode.lossySave
      requires sole ==> !device.mode.rival && Sole(run, device.world, NOTHING_SENT, NOTHING_SEEN)
      requires sole ==> device.world == run.start
      modifies this
      ensures Valid() && this.run == run && this.sole == sole && log == [] && watch == Initial()
    {
      this.run, this.sole, log, watch, callsBefore := run, sole, [], Initial(), device.calls;
    }

    ghost method Record(event: Event)
      requires Journalled(run, log, watch, sole)
      requires Permitted(run, watch.progress, watch.view, event)
      requires watch.diverged ==> Harmless(event)
      requires sole ==> SafeWorld(run, device.world) && !Overwrites(run, event)
      modifies this`log, this`watch
      ensures watch == Next(run, old(watch), event)
      ensures Journalled(run, log, watch, sole)
      ensures old(log) <= log && |log| == |old(log)| + 1 && log[|old(log)|].event == event
    {
      JournalExtends(run, log, watch, sole, event, device.world);
      log := log + [Step(event, device.world, watch, Next(run, watch, event))];
      watch := Next(run, watch, event);
    }

    // ---- reads ----

    method GetClientSSLTemplate(template: string) returns (r: Option<ClientTemplate>)
      requires Valid() && template == run.name
      modifies this`log, this`watch, device
      ensures Valid() && old(log) <= log
      ensures |log| == |old(log)| + 1
      ensures watch == Next(run, old(watch), ReadTemplate(run.name, r))
      ensures r.Some? ==> r.value.name == run.name
      ensures sole ==> device.world == old(device.world)
      ensures sole && r.Some? ==> ContentOf(r.value) == Actual()
    {
      r := device.GetTemplate(template);
      RecordRead(r);
    }

    /** Notes a template read that has just reached the appliance. */
    ghost method RecordRead(r: Option<ClientTemplate>)
      requires Journalled(run, log, watch, sole) && device.calls == callsBefore + |log| + 1
      requires Constant()
      requires sole ==> !device.mode.rival && Kept(run, device.world, watch.progress, watch.view)
      requires sole && watch.requests == 0 ==> device.world == run.start
      requires sole && r.Some? ==>
        && run.name in device.world.running.clients
        && ContentOf(r.value) == SlotContent(run.name, device.world.running.clients[run.name])
      modifies this`log, this`watch
      ensures Valid() && old(log) <= log && |log| == |old(log)| + 1
      ensures watch == Next(run, old(watch), ReadTemplate(run.name, r))
    {
      if sole {
        ReadTemplateTrue(run, device.world, watch, r);
      }
      Record(ReadTemplate(run.name, r));
    }

    method ListCertificateFiles() returns (r: Option<seq<string>>)
      requires Valid()
      modifies this`log, this`watch, device
      ensures Valid() && old(log) <= log
      ensures watch == Next(run, old(watch), ListedCertificates(r))
      ensures r.Some? ==> "" !in r.value
      ensures sole ==> device.world == old(device.world)
      ensures sole && r.Some? ==> PresentsFiles(r.value, device.world.certificates)
    {
      r := device.ListCertificates();
      if sole {
        assert Sole(run, device.world, watch.progress, watch.view);
        ListCertificatesTrue(run, device.world, watch.progress, watch.view, r);
      }
      Record(ListedCertificates(r));
    }

    method ListKeyFiles() returns (r: Option<seq<string>>)
      requires Valid()
      modifies this`log, this`watch, device
      ensures Valid() && old(log) <= log
      ensures watch == Next(run, old(watch), ListedKeys(r))
      ensures r.Some? ==> "" !in r.value
      ensures sole ==> device.world == old(device.world)
      ensures sole && r.Some? ==> PresentsFiles(r.value, device.world.keys)
    {
      r := device.ListKeys();
      if sole {
        assert Sole(run, device.world, watch.progress, watch.view);
        ListKeysTrue(run, device.world, watch.progress, watch.view, r);
      }
      Record(ListedKeys(r));
    }

    method ListCertificates() returns (r: Option<seq<CertificateInfo>>)
      requires Valid()
      modifies this`log, this`watch, device
      ensures Valid() && old(log) <= log
      ensures watch == Next(run, old(watch), ListedInfos(r))
      ensures sole ==> device.world == old(device.world)
      ensures sole && r.Some? ==> PresentsInfos(r.value, device.world.infos)
    {
      r := device.ListInfos();
      if sole {
        assert Sole(run, device.world, watch.progress, watch.view);
        OtherReadTrue(run, device.world, watch.progress, watch.view, ListedInfos(r));
      }
      Record(ListedInfos(r));
    }

    method ListClientSSLTemplates() returns (r: Option<seq<ClientTemplate>>)
      requires Valid()
      modifies this`log, this`watch, device
      ensures Valid() && old(log) <= log
      ensures watch == Next(run, old(watch), ListedClients(r))
      ensures r.Some? ==> DecodedClients(r.value)
      ensures sole ==> device.world == old(device.world)
      ensures sole && r.Some? ==> PresentsClients(r.value, device.world.running.clients)
    {
      r := device.ListClients();
      if sole {
        assert Sole(run, device.world, watch.progress, watch.view);
        OtherReadTrue(run, device.world, watch.progress, watch.view, ListedClients(r));
      }
      Record(ListedClients(r));
    }

    method ListServerSSLTemplates() returns (r: Option<seq<ServerTemplate>>)
      requires Valid()
      modifies this`log, this`watch, device
      ensures Valid() && old(log) <= log
      ensures watch == Next(run, old(watch), ListedServers(r))
      ensures r.Some? ==> DecodedServers(r.value)
      ensures sole ==> device.world == old(device.world)
      ensures sole && r.Some? ==> PresentsServers(r.value, device.world.running.servers)
    {
      r := device.ListServers();
      if sole {
        assert Sole(run, device.world, watch.progress, watch.view);
        OtherReadTrue(run, device.world, watch.progress, watch.view, ListedServers(r));
      }
      Record(ListedServers(r));
    }

    // ---- uploads ----

    method UploadKey(name: string) returns (ok: bool)
      requires Valid() && UploadKeyPermitted(run, watch.progress, watch.view, name)
      requires !watch.diverged
      modifies this`log, this`watch, device
      ensures Valid() && old(log) <= log
      ensures watch == if ValidFileName(name) then Next(run, old(watch), UploadedKey(name, ok)) else old(watch)
      ensures !ValidFileName(name) ==> !ok
      ensures sole ==>
        device.world.running == old(device.world.running) && device.world.infos == old(device.world.infos)
    {
      if !ValidFileName(name) {
        return false;
      }
      ghost var before := device.world;
      ok := device.UploadKey(name);
      if sole {
        UploadKeySafe(run, before, device.world, watch.progress, watch.view, name, ok);
      }
      Record(UploadedKey(name, ok));
    }

    /** Leaf certificates and chains go to the same store. */
    method UploadCertificate(name: string) returns (ok: bool)
      requires Valid() && UploadCertificatePermitted(run, watch.progress, watch.view, name)
      requires !watch.diverged
      modifies this`log, this`watch, device
      ensures Valid() && old(log) <= log
      ensures watch == if ValidFileName(name) then Next(run, old(watch), UploadedCertificate(name, ok)) else old(watch)
      ensures !ValidFileName(name) ==> !ok
      ensures sole ==> device.world.running == old(device.world.running)
    {
      if !ValidFileName(name) {
        return false;
      }
      ghost var before := device.world;
      ok := device.UploadCertificate(name);
      if sole {
        UploadCertificateSafe(run, before, device.world, watch.progress, watch.view, name, ok);
      }
      Record(UploadedCertificate(name, ok));
    }

    // ---- binding changes ----

    method BindCertificate(template: string, binding: Binding) returns (ok: bool)
      requires Valid() && template == run.name
        && BindPermitted(run, watch.progress, watch.view, run.name, binding.Logical())
      requires !watch.diverged
      modifies this`log, this`watch, device
      ensures Valid() && old(log) <= log
      ensures |log| == |old(log)| + (if BindingSendable(binding) then 1 else 0)
      ensures watch == if BindingSendable(binding) then Next(run, old(watch), Bound(run.name, binding.Logical(), ok))
        else old(watch)
      ensures !BindingSendable(binding) ==> !ok
      ensures sole && ok ==> BindContent(old(Actual()), Actual(), binding.Logical())
    {
      if !BindingSendable(binding) {
        return false;
      }
      ghost var before := device.world;
      ok := device.Bind(template, binding.Logical());
      if sole {
        BindSafe(run, before, device.world, watch.progress, watch.view, run.name, binding.Logical(), ok);
        if ok {
          BindEffectContent(run, before, device.world, binding.Logical());
        }
      }
      Record(Bound(run.name, binding.Logical(), ok));
    }

    method UnbindCertificate(template: string, certificate: string) returns (ok: bool)
      requires Valid() && template == run.name
        && UnbindPermitted(run, watch.progress, watch.view, run.name, certificate)
      requires !watch.diverged
      modifies this`log, this`watch, device
      ensures Valid() && old(log) <= log
      ensures |log| == |old(log)| + (if ValidFileName(certificate) then 1 else 0)
      ensures watch == if ValidFileName(certificate) then Next(run, old(watch), Unbound(run.name, certificate, ok))
        else old(watch)
      ensures !ValidFileName(certificate) ==> !ok && device.world == old(device.world)
      ensures sole && ok ==> Actual() == Removed(old(Actual()), certificate)
    {
      if !ValidFileName(certificate) {
        return false;
      }
      ghost var before := device.world;
      ok := device.Unbind(template, certificate);
      if sole {
        UnbindSafe(run, before, device.world, watch.progress, watch.view, run.name, certificate, ok);
        if ok {
          UnbindEffectContent(run, before, device.world, certificate);
        }
      }
      Record(Unbound(run.name, certificate, ok));
    }

    // ---- deletions and saves ----

    /** Deletes files that this run uploaded. */
    method DeleteUploaded(certificate: string, key: string) returns (ok: bool)
      requires Valid() && UndoPermitted(run, watch.progress, watch.view, certificate, key)
      modifies this`log, this`watch, device
      ensures Valid() && old(log) <= log
      ensures watch == if DeletionSendable(certificate, key) then
        Next(run, old(watch), Deleted(true, certificate, key, ok)) else old(watch)
      ensures !DeletionSendable(certificate, key) ==> !ok
      ensures sole ==>
        device.world.running == old(device.world.running) && device.world.saved == old(device.world.saved)
      ensures sole ==>
        device.world.certificates <= old(device.world.certificates) && device.world.keys <= old(device.world.keys)
      ensures sole && ok ==> device.world.certificates !! Selected(certificate) && device.world.keys !! Selected(key)
    {
      if !DeletionSendable(certificate, key) {
        return false;
      }
      ghost var before := device.world;
      ok := device.Delete(certificate, key);
      if sole {
        UndoSafe(run, before, device.world, watch.progress, watch.view, certificate, key, ok);
      }
      Record(Deleted(true, certificate, key, ok));
    }

    /** Deletes files that the run replaced. */
    method DeleteReplaced(certificate: string, key: string) returns (ok: bool)
      requires Valid() && PurgePermitted(run, watch.progress, watch.view, certificate, key)
      requires !watch.diverged
      requires sole ==> ListsTrue(device.world, watch.view)
      modifies this`log, this`watch, device
      ensures Valid() && old(log) <= log
      ensures watch == if DeletionSendable(certificate, key) then
        Next(run, old(watch), Deleted(false, certificate, key, ok)) else old(watch)
      ensures !DeletionSendable(certificate, key) ==> !ok
      ensures sole ==> device.world.running == old(device.world.running)
      ensures sole && ok ==> Erased(old(device.world), device.world, certificate, key)
    {
      if !DeletionSendable(certificate, key) {
        return false;
      }
      ghost var before := device.world;
      ok := device.Delete(certificate, key);
      if sole {
        PurgeSafe(run, before, device.world, watch.progress, watch.view, certificate, key, ok);
      }
      Record(Deleted(false, certificate, key, ok));
    }

    method WriteMemory() returns (ok: bool)
      requires Valid() && SavePermitted(run, watch.progress, watch.view)
      requires !watch.diverged
      modifies this`log, this`watch, device
      ensures Valid() && old(log) <= log
      ensures |log| == |old(log)| + 1 && log[|old(log)|].event == Saved(ok)
      ensures watch == Next(run, old(watch), Saved(ok))
      ensures sole ==> device.world == old(device.world).(saved := device.world.saved)
    {
      ghost var before := device.world;
      ok := device.WriteMemory();
      if sole {
        SaveSafe(run, before, device.world, watch.progress, watch.view, ok);
      }
      Record(Saved(ok));
    }
  }
}
