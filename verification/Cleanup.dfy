/** Deletion of the replaced files, when no template refers to them any more. */
module Cleanup {
  import opened Wrappers
  import opened Templates
  import opened References
  import opened Contents
  import opened Appliance
  import opened Monitor
  import opened Safety
  import opened Names
  import opened Sessions
  import opened Checks

  // ---- the scan ----

  /** The first hit or decode error ends the scan. On decoded responses there is
      no error, and the answer is whether the name is a string of one of them. */
  method ReferencedByClients(list: seq<ClientTemplate>, name: string) returns (r: Option<bool>)
    requires name != ""
    ensures DecodedClients(list) ==> r == Some(ClientsMention(list, name))
    ensures r == Some(false) ==> !ClientsMention(list, name)
  {
    for i := 0 to |list|
      invariant DecodedClients(list) ==> DecodedClients(list[i..])
      invariant ClientsMention(list, name) == ClientsMention(list[i..], name)
    {
      assert list[i..][0] == list[i] && list[i..][1..] == list[i + 1..];
      if DecodedClients(list) {
        ClientScanIsRawScan(list[i].payload.json, list[i], name);
      }
      r := ClientReferences(list[i], name);
      if r != Some(false) {
        return r;
      }
    }
    r := Some(false);
  }

  method ReferencedByServers(list: seq<ServerTemplate>, name: string) returns (r: Option<bool>)
    requires name != ""
    ensures DecodedServers(list) ==> r == Some(ServersMention(list, name))
    ensures r == Some(false) ==> !ServersMention(list, name)
  {
    for i := 0 to |list|
      invariant DecodedServers(list) ==> DecodedServers(list[i..])
      invariant ServersMention(list, name) == ServersMention(list[i..], name)
    {
      assert list[i..][0] == list[i] && list[i..][1..] == list[i + 1..];
      if DecodedServers(list) {
        ServerScanIsRawScan(list[i].payload.json, list[i], name);
      }
      r := ServerReferences(list[i], name);
      if r != Some(false) {
        return r;
      }
    }
    r := Some(false);
  }

  /** Client-SSL templates first, then server-SSL templates. The empty name is
      never referenced. */
  method Referenced(clients: seq<ClientTemplate>, servers: seq<ServerTemplate>, name: string) returns (r: Option<bool>)
    ensures name == "" ==> r == Some(false)
    ensures name != "" && r == Some(false) ==> !ClientsMention(clients, name) && !ServersMention(servers, name)
    ensures DecodedClients(clients) && DecodedServers(servers) ==>
      r == Some(name != "" && (ClientsMention(clients, name) || ServersMention(servers, name)))
  {
    if name == "" {
      return Some(false);
    }
    r := ReferencedByClients(clients, name);
    if r == Some(false) {
      r := ReferencedByServers(servers, name);
    }
  }

  // ---- what may go ----

  /** The names to delete; an empty name is kept. */
  datatype Disposal = Disposal(certificate: string, key: string, chain: string)
  {
    /** The report of the result. */
    function Deleted(): seq<string> {
      (if certificate != "" then ["certificate:" + certificate] else []) +
      (if key != "" then ["key:" + key] else []) +
      (if chain != "" then ["chain:" + chain] else [])
    }

    function Certificates(): set<string> {
      {certificate, chain} - {""}
    }

    function Keys(): set<string> {
      {key} - {""}
    }

    predicate Sendable() {
      && (certificate != "" ==> ValidFileName(certificate)) && (key != "" ==> ValidFileName(key))
      && (chain != "" ==> ValidFileName(chain))
    }
  }

  function Disposable(clients: seq<ClientTemplate>, servers: seq<ServerTemplate>, name: string,
      successor: string): string {
    if name != "" && name != successor && !ClientsMention(clients, name) && !ServersMention(servers, name) then name
    else ""
  }

  /** Every replaced name that no response contains, and no other. */
  function DisposalOf(clients: seq<ClientTemplate>, servers: seq<ServerTemplate>, previous: Entry,
      desired: Entry): Disposal {
    Disposal(
      Disposable(clients, servers, previous.certificate, desired.certificate),
      Disposable(clients, servers, previous.key, desired.key),
      Disposable(clients, servers, previous.chain, desired.chain))
  }

  predicate Within(names: Disposal, most: Disposal) {
    && (names.certificate == "" || names.certificate == most.certificate)
    && (names.key == "" || names.key == most.key)
    && (names.chain == "" || names.chain == most.chain)
  }

  /** All three scans come before any deletion; one that fails ends it. */
  method DecideDisposal(clients: seq<ClientTemplate>, servers: seq<ServerTemplate>, previous: Entry, desired: Entry)
    returns (r: Option<Disposal>)
    ensures r.Some? ==> Within(r.value, DisposalOf(clients, servers, previous, desired))
    ensures DecodedClients(clients) && DecodedServers(servers) ==>
      r == Some(DisposalOf(clients, servers, previous, desired))
  {
    var certificateReferenced := Referenced(clients, servers, previous.certificate);
    if certificateReferenced.None? {
      return None;
    }
    var keyReferenced := Referenced(clients, servers, previous.key);
    if keyReferenced.None? {
      return None;
    }
    var chainReferenced := Referenced(clients, servers, previous.chain);
    if chainReferenced.None? {
      return None;
    }
    var names := Disposal("", "", "");
    if previous.certificate != "" && previous.certificate != desired.certificate && !certificateReferenced.value {
      names := names.(certificate := previous.certificate);
    }
    if previous.key != "" && previous.key != desired.key && !keyReferenced.value {
      names := names.(key := previous.key);
    }
    if previous.chain != "" && previous.chain != desired.chain && !chainReferenced.value {
      names := names.(chain := previous.chain);
    }
    r := Some(names);
  }

  // ---- deletion ----

  /** The replaced entry is no longer bound, and that is saved unless saving is
      switched off. */
  ghost predicate CleanupTime(session: Session)
    reads session, session.device
  {
    session.Valid() && !session.watch.diverged && PurgeTime(session.run, session.watch.progress)
  }

  ghost predicate PurgeTime(run: Run, p: Progress) {
    && run.cleanup && Replaces(run.current, run.desired)
    && (p.save.Persisted? || (run.noWrite && p.save.Untried?))
    && (p.bound || run.desired in run.baseline.bindings)
  }

  ghost predicate OnlyDeleted(before: Progress, after: Progress) {
    after == before.(deleted := after.deleted, cleaned := after.cleaned, purged := after.purged)
  }

  /** Only deletions of replaced files were sent since, and templates are untouched. */
  ghost predicate OnlyPurged(session: Session, watch: Watch, world: World)
    reads session, session.device
  {
    && OnlyDeleted(watch.progress, session.watch.progress)
    && session.watch.failures >= watch.failures && session.watch.view.settled == watch.view.settled
    && (watch.progress.purged ==> session.watch.progress.purged)
    && (session.sole ==> session.device.world.running == world.running)
  }

  /** The lists that the scans work on are the last ones read. */
  ghost predicate Scanned(session: Session, clients: seq<ClientTemplate>, servers: seq<ServerTemplate>)
    reads session, session.device
  {
    && session.watch.view.clients == Some(clients) && session.watch.view.servers == Some(servers)
    && (session.sole ==> ListsTrue(session.device.world, session.watch.view))
  }

  method ListTemplates(session: Session)
    returns (clients: Option<seq<ClientTemplate>>, servers: Option<seq<ServerTemplate>>)
    requires CleanupTime(session)
    modifies session`log, session`watch, session.device
    ensures CleanupTime(session) && session.watch.progress == old(session.watch.progress)
    ensures NoBindingSent(old(session.watch), session.watch)
    ensures session.sole ==> session.device.world == old(session.device.world)
    ensures clients.Some? && servers.Some? ==>
      Scanned(session, clients.value, servers.value) && DecodedClients(clients.value) && DecodedServers(servers.value)
    ensures session.watch.failures == old(session.watch.failures) ==> clients.Some? && servers.Some?
  {
    servers := None;
    clients := session.ListClientSSLTemplates();
    if clients.Some? {
      servers := session.ListServerSSLTemplates();
    }
  }

  lemma DeletionPurges(session: Session, watch: Watch, world: World, certificate: string, key: string, ok: bool,
      clients: seq<ClientTemplate>, servers: seq<ServerTemplate>)
    requires session.Valid() && PurgeTime(session.run, watch.progress) && !watch.diverged
    requires watch.view.clients == Some(clients) && watch.view.servers == Some(servers)
    requires session.sole ==> ListsTrue(world, watch.view) && session.device.world.running == world.running
    requires certificate != "" || key != ""
    requires DeletionSendable(certificate, key) || !ok
    requires session.watch ==
      if DeletionSendable(certificate, key) then Next(session.run, watch, Deleted(false, certificate, key, ok))
        else watch
    ensures CleanupTime(session) && Scanned(session, clients, servers) && OnlyPurged(session, watch, world)
    ensures ok ==> session.watch.progress.purged
  {
  }

  /** One deletion request for names that may go. */
  method DeleteNames(session: Session, certificate: string, key: string, ghost clients: seq<ClientTemplate>,
      ghost servers: seq<ServerTemplate>)
    returns (ok: bool)
    requires CleanupTime(session) && Scanned(session, clients, servers)
    requires PurgePermitted(session.run, session.watch.progress, session.watch.view, certificate, key)
    modifies session`log, session`watch, session.device
    ensures CleanupTime(session) && Scanned(session, clients, servers)
    ensures OnlyPurged(session, old(session.watch), old(session.device.world))
    ensures ok && (certificate != "" || key != "") ==> session.watch.progress.purged
    ensures certificate == "" && key == "" ==> session.watch.progress == old(session.watch.progress)
    ensures session.sole && ok ==> Erased(old(session.device.world), session.device.world, certificate, key)
    ensures session.watch.failures == old(session.watch.failures) ==>
      (ok <==> Disposal(certificate, key, "").Sendable())
  {
    ok := true;
    if certificate != "" || key != "" {
      ok := session.DeleteReplaced(certificate, key);
      DeletionPurges(session, old(session.watch), old(session.device.world), certificate, key, ok, clients, servers);
    }
  }

  lemma DisposalPermitted(run: Run, p: Progress, v: View, clients: seq<ClientTemplate>, servers: seq<ServerTemplate>,
      names: Disposal)
    requires PurgeTime(run, p)
    requires v.clients == Some(clients) && v.servers == Some(servers)
    requires names == DisposalOf(clients, servers, run.current.value, run.desired)
    ensures PurgePermitted(run, p, v, names.certificate, names.key) && PurgePermitted(run, p, v, names.chain, "")
  {
  }

  /** Exactly the disposable names are gone. */
  ghost predicate Disposed(before: World, after: World, names: Disposal) {
    && after.certificates == before.certificates - names.Certificates()
    && after.keys == before.keys - names.Keys()
  }

  lemma BothErased(before: World, between: World, after: World, names: Disposal)
    requires Erased(before, between, names.certificate, names.key) && Erased(between, after, names.chain, "")
    ensures Disposed(before, after, names)
  {
  }

  /** Deletes the pair in one request and the chain in another. */
  method DeleteDisposal(session: Session, ghost clients: seq<ClientTemplate>, ghost servers: seq<ServerTemplate>,
      names: Disposal)
    returns (ok: bool)
    requires CleanupTime(session) && Scanned(session, clients, servers)
    requires names == DisposalOf(clients, servers, session.run.current.value, session.run.desired)
    modifies session`log, session`watch, session.device
    ensures CleanupTime(session) && Scanned(session, clients, servers)
    ensures OnlyPurged(session, old(session.watch), old(session.device.world))
    ensures ok && names.Deleted() != [] ==> session.watch.progress.purged
    ensures names.Deleted() == [] ==> session.watch.progress == old(session.watch.progress)
    ensures session.sole && ok ==> Disposed(old(session.device.world), session.device.world, names)
    ensures session.watch.failures == old(session.watch.failures) ==> (ok <==> names.Sendable())
  {
    DisposalPermitted(session.run, session.watch.progress, session.watch.view, clients, servers, names);
    ok := DeleteNames(session, names.certificate, names.key, clients, servers);
    if ok {
      ghost var between := session.device.world;
      DisposalPermitted(session.run, session.watch.progress, session.watch.view, clients, servers, names);
      ok := DeleteNames(session, names.chain, "", clients, servers);
      if session.sole && ok {
        BothErased(old(session.device.world), between, session.device.world, names);
      }
    }
  }

  /** What the lists last read make disposable. */
  ghost function Doomed(session: Session): Disposal
    requires session.run.current.Some? && session.watch.view.clients.Some? && session.watch.view.servers.Some?
    reads session
  {
    DisposalOf(session.watch.view.clients.value, session.watch.view.servers.value, session.run.current.value,
      session.run.desired)
  }

  /** Without a failing call the lists decide: a cleanup completes exactly if every
      disposable name can be sent. */
  ghost predicate DoomedDecide(session: Session, complete: bool)
    reads session
  {
    && session.watch.view.clients.Some? && session.watch.view.servers.Some? && session.run.current.Some?
    && (complete <==> Doomed(session).Sendable())
  }

  /** What a completed cleanup reports: the lists last read decide, and with a
      sole writer the disposable names are gone. */
  ghost predicate CleanedUp(session: Session, deleted: seq<string>)
    reads session, session.device
  {
    && session.watch.view.clients.Some? && session.watch.view.servers.Some? && session.run.current.Some?
    && var names := Doomed(session);
       && deleted == names.Deleted()
       && (if deleted != [] then session.watch.progress.purged else !session.watch.progress.cleaned)
       && (session.sole ==>
             session.device.world.certificates !! names.Certificates() && session.device.world.keys !! names.Keys())
  }

  /** A cleanup that deleted something has taken a file of the old entry. */
  lemma DeletionTakesOld(session: Session, deleted: seq<string>)
    requires CleanedUp(session, deleted) && deleted != [] && session.sole
    ensures !OldStored(session.run, session.device.world)
  {
    var names := Doomed(session);
    assert names.certificate in names.Certificates() || names.chain in names.Certificates()
      || names.key in names.Keys();
  }

  /** Lists all templates and decides, before anything is deleted. */
  method PlanDisposal(session: Session, previous: Entry, desired: Entry)
    returns (names: Option<Disposal>, ghost clients: seq<ClientTemplate>, ghost servers: seq<ServerTemplate>)
    requires CleanupTime(session)
    modifies session`log, session`watch, session.device
    ensures CleanupTime(session) && session.watch.progress == old(session.watch.progress)
    ensures NoBindingSent(old(session.watch), session.watch)
    ensures session.sole ==> session.device.world == old(session.device.world)
    ensures names.Some? ==>
      Scanned(session, clients, servers) && names.value == DisposalOf(clients, servers, previous, desired)
    ensures session.watch.failures == old(session.watch.failures) ==> names.Some?
  {
    names, clients, servers := None, [], [];
    var listedClients, listedServers := ListTemplates(session);
    if listedClients.Some? && listedServers.Some? {
      clients, servers := listedClients.value, listedServers.value;
      names := DecideDisposal(listedClients.value, listedServers.value, previous, desired);
    }
  }

  method DeleteUnreferenced(session: Session, previous: Entry, desired: Entry) returns (r: Option<seq<string>>)
    requires !session.watch.progress.cleaned
    requires CleanupTime(session) && session.run.current == Some(previous) && session.run.desired == desired
    modifies session`log, session`watch, session.device
    ensures CleanupTime(session) && OnlyDeleted(old(session.watch.progress), session.watch.progress)
    ensures session.watch.failures >= old(session.watch.failures)
    ensures session.watch.view.settled == old(session.watch.view.settled)
    ensures session.sole ==> session.device.world.running == old(session.device.world.running)
    ensures r.Some? ==> CleanedUp(session, r.value)
    ensures session.sole && r.Some? ==> Disposed(old(session.device.world), session.device.world, Doomed(session))
    ensures session.watch.failures == old(session.watch.failures) ==> DoomedDecide(session, r.Some?)
  {
    var names;
    ghost var clients, servers;
    names, clients, servers := PlanDisposal(session, previous, desired);
    if names.None? {
      return None;
    }
    var ok := DeleteDisposal(session, clients, servers, names.value);
    r := if ok then Some(names.value.Deleted()) else None;
  }
}
