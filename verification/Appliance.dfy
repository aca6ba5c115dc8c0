/** The appliance as the client can know it: every request is one atomic step
    with a response and an effect, and the two need not agree. */
module Appliance {
  import opened Wrappers
  import opened JsonTree
  import opened Templates
  import opened Revision
  import opened Contents

  /** Logical state of one client-SSL template. The other fields name files too:
      whatever certificate and key names the appliance resolves from them
      (SNI, forward proxy, fields of a later release) are in the two reference
      sets, and each is a string of the response. */
  datatype Slot = Slot(entries: seq<Entry>, rest: map<string, Json>, certificateRefs: set<string>, keyRefs: set<string>)
  {
    ghost predicate WellFormed() {
      && Unique(entries)
      && (forall name :: name in certificateRefs || name in keyRefs ==> ContainsString(Object(rest), name))
    }
  }

  /** A server-SSL template, never changed by a synchronization. */
  datatype Backend = Backend(payload: Json, certificateRefs: set<string>, keyRefs: set<string>)
  {
    ghost predicate WellFormed() {
      forall name :: name in certificateRefs || name in keyRefs ==> ContainsString(payload, name)
    }
  }

  datatype Config = Config(clients: map<string, Slot>, servers: map<string, Backend>)

  /** Operational metadata of a certificate file. */
  datatype CertificateInfo = CertificateInfo(
    name: string, serial: string, commonName: string, notAfter: int, keySize: int)

  datatype World = World(
    running: Config, saved: Config,
    certificates: set<string>, keys: set<string>,
    infos: map<string, CertificateInfo>)

  /** What the environment may do. With a rival writer the state may change
      arbitrarily before any call. A request that reports failure may still have
      been applied; the two flags admit that for uploads and for saves. Bind,
      unbind and delete requests always have that freedom. */
  datatype Mode = Mode(rival: bool, lossyUpload: bool, lossySave: bool)

  function SlotContent(name: string, slot: Slot): Content {
    Content(name, multiset(slot.entries), slot.rest)
  }

  function DropEntries(entries: seq<Entry>, certificate: string): (r: seq<Entry>)
    ensures forall e :: e in r <==> e in entries && e.certificate != certificate
    ensures |r| <= |entries|
  {
    if entries == [] then []
    else if entries[0].certificate == certificate then DropEntries(entries[1..], certificate)
    else [entries[0]] + DropEntries(entries[1..], certificate)
  }

  // ---- responses ----

  /** A decoded response that shows a slot: same content, any order, any
      generated metadata. */
  predicate Presents(template: ClientTemplate, name: string, slot: Slot) {
    && template.payload.Tree?
    && DecodeClient(template.payload.json) == Some(template)
    && ContentOf(template) == SlotContent(name, slot)
  }

  predicate PresentsClients(list: seq<ClientTemplate>, clients: map<string, Slot>) {
    forall name :: name in clients ==> exists i :: 0 <= i < |list| && Presents(list[i], name, clients[name])
  }

  predicate PresentsServers(list: seq<ServerTemplate>, servers: map<string, Backend>) {
    forall name :: name in servers ==>
      exists i :: 0 <= i < |list| && list[i].payload == Tree(servers[name].payload) &&
                  DecodeServer(servers[name].payload) == Some(list[i])
  }

  /** Listed templates were decoded from their retained responses. */
  predicate DecodedClients(list: seq<ClientTemplate>) {
    list == [] ||
    (list[0].payload.Tree? && DecodeClient(list[0].payload.json) == Some(list[0]) && DecodedClients(list[1..]))
  }

  predicate DecodedServers(list: seq<ServerTemplate>) {
    list == [] ||
    (list[0].payload.Tree? && DecodeServer(list[0].payload.json) == Some(list[0]) && DecodedServers(list[1..]))
  }

  predicate PresentsInfos(list: seq<CertificateInfo>, infos: map<string, CertificateInfo>) {
    && (forall i :: 0 <= i < |list| ==> list[i].name in infos && infos[list[i].name] == list[i])
    && (forall name :: name in infos ==> exists i :: 0 <= i < |list| && list[i].name == name)
  }

  /** An inventory without its empty names, which the client drops. */
  predicate PresentsFiles(list: seq<string>, files: set<string>) {
    && (forall name :: name in list ==> name in files && name != "")
    && (forall name :: name in files ==> name == "" || name in list)
  }

  // ---- effects ----

  function WithSlot(w: World, name: string, entries: seq<Entry>): World
    requires name in w.running.clients
  {
    w.(running := w.running.(clients := w.running.clients[name := w.running.clients[name].(entries := entries)]))
  }

  /** Certificate names are keys of the list: binding overwrites an entry of the
      same name. A sole entry may be replaced instead. */
  predicate BindEffect(w: World, w': World, name: string, entry: Entry) {
    name in w.running.clients &&
    var entries := w.running.clients[name].entries;
    || w' == WithSlot(w, name, DropEntries(entries, entry.certificate) + [entry])
    || (|entries| == 1 && w' == WithSlot(w, name, [entry]))
  }

  predicate UnbindEffect(w: World, w': World, name: string, certificate: string) {
    name in w.running.clients &&
    w' == WithSlot(w, name, DropEntries(w.running.clients[name].entries, certificate))
  }

  /** A request that fails may have been applied all the same. */
  predicate BindAnswered(w: World, w': World, name: string, entry: Entry, ok: bool) {
    (!ok && w' == w) || BindEffect(w, w', name, entry)
  }

  predicate UnbindAnswered(w: World, w': World, name: string, certificate: string, ok: bool) {
    (!ok && w' == w) || UnbindEffect(w, w', name, certificate)
  }

  /** A name left empty in a request selects nothing. */
  function Selected(name: string): set<string> {
    if name == "" then {} else {name}
  }

  /** What a deletion takes away. */
  predicate Erased(w: World, w': World, certificate: string, key: string) {
    w'.certificates == w.certificates - Selected(certificate) && w'.keys == w.keys - Selected(key)
  }

  /** Deletion may stop half way when it fails. */
  predicate DeleteEffect(w: World, w': World, certificate: string, key: string, ok: bool) {
    && w' == w.(certificates := w'.certificates, keys := w'.keys)
    && w.certificates - Selected(certificate) <= w'.certificates <= w.certificates
    && w.keys - Selected(key) <= w'.keys <= w.keys
    && (ok ==> Erased(w, w', certificate, key))
  }

  predicate UploadCertificateEffect(w: World, w': World, name: string) {
    && w' == w.(certificates := w.certificates + {name}, infos := w'.infos)
    && (forall n :: n in w.infos && n != name ==> n in w'.infos && w'.infos[n] == w.infos[n])
    && w'.infos.Keys <= w.infos.Keys + {name}
  }

  /** A save that fails may have been applied unless that is ruled out. */
  predicate SaveEffect(w: World, w': World, lossy: bool, ok: bool) {
    if ok then w' == w.(saved := w.running)
    else w' == w || (lossy && w' == w.(saved := w.running))
  }

  class Device {
    const mode: Mode
    var world: World
    /** How many calls it has received. */
    ghost var calls: nat

    constructor (mode: Mode, world: World)
      ensures this.mode == mode && this.world == world && calls == 0
    {
      this.mode, this.world, calls := mode, world, 0;
    }

    /** The arrival of a call, before which a rival may write anything. */
    method Disturb()
      modifies this
      ensures calls == old(calls) + 1
      ensures !mode.rival ==> world == old(world)
    {
      calls := calls + 1;
      if mode.rival {
        world := *;
      }
    }

    method CheckVersion() returns (ok: bool)
      modifies this
      ensures calls == old(calls) + 1
      ensures !mode.rival ==> world == old(world)
    {
      Disturb();
      ok := *;
    }

    method GetTemplate(name: string) returns (r: Option<ClientTemplate>)
      modifies this
      ensures calls == old(calls) + 1
      ensures !mode.rival ==> world == old(world)
      ensures r.Some? ==> name in world.running.clients && Presents(r.value, name, world.running.clients[name])
      ensures r.Some? ==> r.value.name == name
    {
      Disturb();
      r := None;
      if * {
        var response: ClientTemplate := *;
        if name in world.running.clients && Presents(response, name, world.running.clients[name]) {
          r := Some(response);
        }
      }
    }

    method ListClients() returns (r: Option<seq<ClientTemplate>>)
      modifies this
      ensures calls == old(calls) + 1
      ensures !mode.rival ==> world == old(world)
      ensures r.Some? ==> PresentsClients(r.value, world.running.clients) && DecodedClients(r.value)
    {
      Disturb();
      r := None;
      if * {
        var response: seq<ClientTemplate> := *;
        if PresentsClients(response, world.running.clients) && DecodedClients(response) {
          r := Some(response);
        }
      }
    }

    method ListServers() returns (r: Option<seq<ServerTemplate>>)
      modifies this
      ensures calls == old(calls) + 1
      ensures !mode.rival ==> world == old(world)
      ensures r.Some? ==> PresentsServers(r.value, world.running.servers) && DecodedServers(r.value)
    {
      Disturb();
      r := None;
      if * {
        var response: seq<ServerTemplate> := *;
        if PresentsServers(response, world.running.servers) && DecodedServers(response) {
          r := Some(response);
        }
      }
    }

    method ListCertificates() returns (r: Option<seq<string>>)
      modifies this
      ensures calls == old(calls) + 1
      ensures !mode.rival ==> world == old(world)
      ensures r.Some? ==> PresentsFiles(r.value, world.certificates)
    {
      Disturb();
      r := None;
      if * {
        var response: seq<string> := *;
        if PresentsFiles(response, world.certificates) {
          r := Some(response);
        }
      }
    }

    method ListKeys() returns (r: Option<seq<string>>)
      modifies this
      ensures calls == old(calls) + 1
      ensures !mode.rival ==> world == old(world)
      ensures r.Some? ==> PresentsFiles(r.value, world.keys)
    {
      Disturb();
      r := None;
      if * {
        var response: seq<string> := *;
        if PresentsFiles(response, world.keys) {
          r := Some(response);
        }
      }
    }

    method ListInfos() returns (r: Option<seq<CertificateInfo>>)
      modifies this
      ensures calls == old(calls) + 1
      ensures !mode.rival ==> world == old(world)
      ensures r.Some? ==> PresentsInfos(r.value, world.infos)
    {
      Disturb();
      r := None;
      if * {
        var response: seq<CertificateInfo> := *;
        if PresentsInfos(response, world.infos) {
          r := Some(response);
        }
      }
    }

    method UploadKey(name: string) returns (ok: bool)
      modifies this
      ensures calls == old(calls) + 1
      ensures !mode.rival ==> world == old(world) || world == old(world).(keys := old(world).keys + {name})
      ensures !mode.rival && ok ==> name in world.keys
      ensures !mode.rival && !ok && !mode.lossyUpload ==> world == old(world)
    {
      Disturb();
      ok := *;
      var applied: bool := *;
      if ok || (applied && mode.lossyUpload) {
        world := world.(keys := world.keys + {name});
      }
    }

    method UploadCertificate(name: string) returns (ok: bool)
      modifies this
      ensures calls == old(calls) + 1
      ensures !mode.rival ==> world == old(world) || UploadCertificateEffect(old(world), world, name)
      ensures !mode.rival && ok ==> name in world.certificates
      ensures !mode.rival && !ok && !mode.lossyUpload ==> world == old(world)
    {
      Disturb();
      ok := *;
      var applied: bool := *;
      var info: CertificateInfo := *;
      if ok || (applied && mode.lossyUpload) {
        world := world.(certificates := world.certificates + {name}, infos := world.infos[name := info.(name := name)]);
      }
    }

    method Bind(name: string, entry: Entry) returns (ok: bool)
      modifies this
      ensures calls == old(calls) + 1
      ensures !mode.rival ==> BindAnswered(old(world), world, name, entry, ok)
    {
      Disturb();
      ok := false;
      var applied, replaced: bool := *, *;
      if applied && name in world.running.clients {
        ok := *;
        var entries := world.running.clients[name].entries;
        if replaced && |entries| == 1 {
          world := WithSlot(world, name, [entry]);
        } else {
          world := WithSlot(world, name, DropEntries(entries, entry.certificate) + [entry]);
        }
      }
    }

    method Unbind(name: string, certificate: string) returns (ok: bool)
      modifies this
      ensures calls == old(calls) + 1
      ensures !mode.rival ==> UnbindAnswered(old(world), world, name, certificate, ok)
    {
      Disturb();
      ok := false;
      var applied: bool := *;
      if applied && name in world.running.clients {
        ok := *;
        world := WithSlot(world, name, DropEntries(world.running.clients[name].entries, certificate));
      }
    }

    method Delete(certificate: string, key: string) returns (ok: bool)
      modifies this
      ensures calls == old(calls) + 1
      ensures !mode.rival ==> DeleteEffect(old(world), world, certificate, key, ok)
    {
      Disturb();
      ok := *;
      var first, second: bool := *, *;
      if ok || first {
        world := world.(certificates := world.certificates - Selected(certificate));
      }
      if ok || second {
        world := world.(keys := world.keys - Selected(key));
      }
    }

    method WriteMemory() returns (ok: bool)
      modifies this
      ensures calls == old(calls) + 1
      ensures !mode.rival ==> SaveEffect(old(world), world, mode.lossySave, ok)
    {
      Disturb();
      ok := *;
      var applied: bool := *;
      if ok || (applied && mode.lossySave) {
        world := world.(saved := world.running);
      }
    }
  }
}
