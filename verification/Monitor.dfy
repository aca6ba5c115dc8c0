/** What one synchronization is allowed to send, and what the appliance state
    must satisfy meanwhile.

    The monitor reads the sequence of calls and keeps the few facts a reader of
    the trace would keep: what the last template read showed, which files this
    run uploaded, whether a bind was sent, and how far saving got. `Permitted`
    says which request is justified by those facts; `SafeWorld` says what holds
    of the appliance at every step when nobody else writes. */
module Monitor {
  import opened Wrappers
  import opened JsonTree
  import opened Templates
  import opened Revision
  import opened Contents
  import opened Appliance

  datatype Event =
    | CheckedVersion(ok: bool)
    | ReadTemplate(template: string, response: Option<ClientTemplate>)
    | ListedCertificates(names: Option<seq<string>>)
    | ListedKeys(names: Option<seq<string>>)
    | ListedInfos(infos: Option<seq<CertificateInfo>>)
    | ListedClients(clients: Option<seq<ClientTemplate>>)
    | ListedServers(servers: Option<seq<ServerTemplate>>)
    | UploadedKey(name: string, ok: bool)
    | UploadedCertificate(name: string, ok: bool)
    | Bound(template: string, entry: Entry, ok: bool)
    | Unbound(template: string, certificate: string, ok: bool)
    | Deleted(undo: bool, certificate: string, key: string, ok: bool)
    | Saved(ok: bool)

  /** One synchronization, from the first template read on. `start` is the state
      at that read; `desired` is the entry to bind, `current` the selected one.
      `added` and `goal` are what the bind and the whole run are to reach. */
  datatype Run = Run(
    name: string, baseline: Content, desired: Entry, current: Option<Entry>,
    added: Content, goal: Content,
    noWrite: bool, cleanup: bool,
    start: World,
    exact: bool,       // a failed upload has no effect
    keepsSaved: bool,  // a failed save has no effect
    guarded: bool)     // the saved configuration is resolved at the start and must stay so

  datatype SaveState = Untried | Failed | Persisted | Restored

  /** What the most recent reads showed, as far as it still stands. */
  datatype View = View(
    read: Option<Content>,     // the last call was a template read that showed this
    settled: Option<Content>,  // the last template read, no bind or unbind sent since
    certificates: Option<seq<string>>, keys: Option<seq<string>>,
    clients: Option<seq<ClientTemplate>>, servers: Option<seq<ServerTemplate>>)

  /** What has been sent. */
  datatype Progress = Progress(
    mineCertificates: set<string>, mineKeys: set<string>,  // acknowledged uploads
    bound: bool, rebound: bool,  // a bind of the desired entry was sent; one of the current entry was acknowledged
    save: SaveState,
    deleted: bool, cleaned: bool, purged: bool)  // any deletion sent; one of old files; one acknowledged

  /** The uploads and the bind are what they were. */
  predicate SameMaterial(before: Progress, after: Progress) {
    && after.mineCertificates == before.mineCertificates && after.mineKeys == before.mineKeys
    && after.bound == before.bound
  }

  datatype Watch = Watch(
    view: View, progress: Progress,
    failures: nat,    // calls that failed
    requests: nat,    // calls that were not reads
    unbound: bool,    // an unbind was sent
    diverged: bool)   // a template read before any save showed a state the run does not explain

  /** A call, the appliance state after it, and what was known around it. */
  datatype Step = Step(event: Event, world: World, before: Watch, after: Watch)

  const NOTHING_SEEN := View(None, None, None, None, None, None)
  const NOTHING_SENT := Progress({}, {}, false, false, Untried, false, false, false)

  function Initial(): Watch {
    Watch(NOTHING_SEEN, NOTHING_SENT, 0, 0, false, false)
  }

  ghost predicate Plan(run: Run) {
    && run.added == Added(run.baseline, run.desired)
    && run.goal == Goal(run.baseline, run.desired, run.current)
  }

  /** The plan in a form that is unfolded only where it is asked for. */
  ghost predicate Planned(run: Run) {
    forall r: Run {:trigger Plan(r)} :: r == run ==> Plan(r)
  }

  // ---- which requests are justified ----

  predicate Listed(names: Option<seq<string>>, name: string) {
    names.Some? && name in names.value
  }

  /** The three files of the desired entry were listed or uploaded. */
  predicate MaterialReady(run: Run, p: Progress, v: View) {
    && (run.desired.key in p.mineKeys || Listed(v.keys, run.desired.key))
    && (run.desired.certificate in p.mineCertificates || Listed(v.certificates, run.desired.certificate))
    && (run.desired.chain != "" ==>
          run.desired.chain in p.mineCertificates || Listed(v.certificates, run.desired.chain))
  }

  predicate UploadKeyPermitted(run: Run, p: Progress, v: View, name: string) {
    && p.save.Untried? && !p.bound && !p.deleted
    && name == run.desired.key
    && v.keys.Some? && name !in v.keys.value
  }

  predicate UploadCertificatePermitted(run: Run, p: Progress, v: View, name: string) {
    && p.save.Untried? && !p.bound && !p.deleted
    && name != "" && (name == run.desired.certificate || name == run.desired.chain)
    && v.certificates.Some? && name !in v.certificates.value
  }

  /** Forward: the baseline was read by the call just before. Rollback: the goal
      was, and the entry is the one the run took away. */
  ghost predicate BindPermitted(run: Run, p: Progress, v: View, template: string, entry: Entry) {
    && template == run.name && !p.deleted
    && ((p.save.Untried? && !p.bound && entry == run.desired && entry !in run.baseline.bindings
         && v.read == Some(run.baseline) && MaterialReady(run, p, v))
        || (p.save.Failed? && run.current == Some(entry) && Replaces(run.current, run.desired)
            && v.read == Some(run.goal) && !Holds(run.baseline.bindings, run.desired.certificate)))
  }

  /** Forward: the call just before showed the desired entry beside the baseline.
      Rollback: it showed the desired name, and the current entry is back. */
  ghost predicate UnbindPermitted(run: Run, p: Progress, v: View, template: string, certificate: string) {
    && template == run.name && !p.deleted
    && ((p.save.Untried? && Replaces(run.current, run.desired) && certificate == run.current.value.certificate
         && v.read == Some(run.added))
        || (p.save.Failed? && certificate == run.desired.certificate && !Holds(run.baseline.bindings, certificate)
            && (run.current.Some? ==> Replaces(run.current, run.desired))
            && v.read.Some? && Holds(v.read.value.bindings, certificate)
            && (run.current.Some? ==> p.rebound || run.current.value in v.read.value.bindings)))
  }

  /** Deletions of the run's own uploads: no bind of them was sent, or the baseline
      has been seen restored after a failed save. */
  ghost predicate UndoPermitted(run: Run, p: Progress, v: View, certificate: string, key: string) {
    && (!p.bound || (p.save.Failed? && v.settled == Some(run.baseline)))
    && (certificate == "" || certificate in p.mineCertificates)
    && (key == "" || key in p.mineKeys)
  }

  predicate Mentions(payload: Payload, name: string) {
    payload.Tree? && ContainsString(payload.json, name)
  }

  predicate ClientsMention(list: seq<ClientTemplate>, name: string) {
    list != [] && (Mentions(list[0].payload, name) || ClientsMention(list[1..], name))
  }

  predicate ServersMention(list: seq<ServerTemplate>, name: string) {
    list != [] && (Mentions(list[0].payload, name) || ServersMention(list[1..], name))
  }

  /** The name is a string of no listed response. */
  predicate Unmentioned(v: View, name: string) {
    && v.clients.Some? && v.servers.Some?
    && !ClientsMention(v.clients.value, name) && !ServersMention(v.servers.value, name)
  }

  predicate OldCertificate(run: Run, name: string) {
    run.current.Some? &&
    ((name == run.current.value.certificate && name != run.desired.certificate)
     || (name == run.current.value.chain && name != run.desired.chain))
  }

  /** The file names of the current entry, which a cleanup may delete. */
  function OldCertificates(run: Run): set<string> {
    if run.current.None? then {} else {run.current.value.certificate, run.current.value.chain} - {""}
  }

  function OldKeys(run: Run): set<string> {
    if run.current.None? then {} else {run.current.value.key} - {""}
  }

  /** Deletions of replaced files: requested, saved first, and unmentioned. */
  ghost predicate PurgePermitted(run: Run, p: Progress, v: View, certificate: string, key: string) {
    && run.cleanup && Replaces(run.current, run.desired)
    && (p.save.Persisted? || (run.noWrite && p.save.Untried?))
    && (p.bound || run.desired in run.baseline.bindings)
    && (certificate == "" || (Unmentioned(v, certificate) && OldCertificate(run, certificate)))
    && (key == "" || (Unmentioned(v, key) && key == run.current.value.key && key != run.desired.key))
  }

  /** Something was uploaded, or bound, or has to be replaced. */
  predicate Altered(run: Run, p: Progress) {
    p.mineCertificates != {} || p.mineKeys != {} || p.bound || Replaces(run.current, run.desired)
  }

  /** First save: the goal was read by the call just before. Save of a rollback:
      the baseline was seen restored and none of the uploads is still listed.
      Save after cleanup: something was deleted. */
  ghost predicate SavePermitted(run: Run, p: Progress, v: View) {
    match p.save
    case Untried => !run.noWrite && v.read == Some(run.goal) && !p.deleted && Altered(run, p)
    case Failed =>
      && v.settled == Some(run.baseline)
      && v.certificates.Some? && (forall name :: name in p.mineCertificates ==> name !in v.certificates.value)
      && v.keys.Some? && (forall name :: name in p.mineKeys ==> name !in v.keys.value)
    case Persisted => p.purged
    case Restored => false
  }

  ghost predicate Permitted(run: Run, p: Progress, v: View, event: Event) {
    match event
    case UploadedKey(name, _) => UploadKeyPermitted(run, p, v, name)
    case UploadedCertificate(name, _) => UploadCertificatePermitted(run, p, v, name)
    case Bound(template, entry, _) => BindPermitted(run, p, v, template, entry)
    case Unbound(template, certificate, _) => UnbindPermitted(run, p, v, template, certificate)
    case Deleted(undo, certificate, key, _) =>
      && (certificate != "" || key != "")
      && (if undo then UndoPermitted(run, p, v, certificate, key) else PurgePermitted(run, p, v, certificate, key))
    case Saved(_) => SavePermitted(run, p, v)
    case ReadTemplate(template, _) => template == run.name
    case _ => true
  }

  // ---- how calls change what is known ----

  function NextView(v: View, event: Event): View {
    match event
    case ReadTemplate(_, response) =>
      if response.Some? then v.(read := Some(ContentOf(response.value)), settled := Some(ContentOf(response.value)))
      else v.(read := None)
    case ListedCertificates(names) => v.(read := None, certificates := names)
    case ListedKeys(names) => v.(read := None, keys := names)
    case ListedClients(clients) => v.(read := None, clients := clients)
    case ListedServers(servers) => v.(read := None, servers := servers)
    case Bound(_, _, _) => v.(read := None, settled := None, clients := None, servers := None)
    case Unbound(_, _, _) => v.(read := None, settled := None, clients := None, servers := None)
    case Deleted(_, _, _, _) => v.(read := None, certificates := None, keys := None)
    case _ => v.(read := None)
  }

  function AfterSave(save: SaveState, ok: bool): SaveState {
    match save
    case Untried => if ok then Persisted else Failed
    case Failed => if ok then Restored else Failed
    case _ => save
  }

  function NextProgress(run: Run, p: Progress, event: Event): Progress {
    match event
    case UploadedKey(name, ok) => if ok then p.(mineKeys := p.mineKeys + {name}) else p
    case UploadedCertificate(name, ok) => if ok then p.(mineCertificates := p.mineCertificates + {name}) else p
    case Bound(_, entry, ok) =>
      if entry == run.desired then p.(bound := true)
      else p.(rebound := p.rebound || ok)
    case Deleted(undo, _, _, ok) =>
      p.(deleted := true, cleaned := p.cleaned || !undo, purged := p.purged || (!undo && ok))
    case Saved(ok) => p.(save := AfterSave(p.save, ok))
    case _ => p
  }

  predicate Succeeded(event: Event) {
    match event
    case ReadTemplate(_, response) => response.Some?
    case ListedCertificates(names) => names.Some?
    case ListedKeys(names) => names.Some?
    case ListedInfos(infos) => infos.Some?
    case ListedClients(clients) => clients.Some?
    case ListedServers(servers) => servers.Some?
    case CheckedVersion(ok) => ok
    case UploadedKey(_, ok) => ok
    case UploadedCertificate(_, ok) => ok
    case Bound(_, _, ok) => ok
    case Unbound(_, _, ok) => ok
    case Deleted(_, _, _, ok) => ok
    case Saved(ok) => ok
  }

  /** The one state that the program goes on with: what it read last, if it sent no
      binding change since; else the goal after an unbind, the baseline before a
      bind. */
  ghost predicate Awaits(run: Run, w: Watch, seen: Content) {
    if w.view.settled.Some? then w.view.settled == Some(seen)
    else if w.unbound then seen == run.goal
    else !w.progress.bound && seen == run.baseline
  }

  /** Right after the bind there are two such states. */
  ghost predicate Expected(run: Run, w: Watch, seen: Content) {
    || Awaits(run, w, seen)
    || (w.view.settled.None? && !w.unbound && w.progress.bound && (seen == run.added || seen == run.goal))
  }

  /** A template read, before any save was tried, that shows another state. */
  ghost predicate Mismatch(run: Run, w: Watch, event: Event) {
    && w.progress.save.Untried?
    && event.ReadTemplate? && event.response.Some? && !Expected(run, w, ContentOf(event.response.value))
  }

  /** A template read that showed this. */
  predicate ReadShows(event: Event, name: string, seen: Content) {
    event.ReadTemplate? && event.template == name && event.response.Some? && ContentOf(event.response.value) == seen
  }

  predicate IsRead(event: Event) {
    match event
    case UploadedKey(_, _) => false
    case UploadedCertificate(_, _) => false
    case Bound(_, _, _) => false
    case Unbound(_, _, _) => false
    case Deleted(_, _, _, _) => false
    case Saved(_) => false
    case _ => true
  }

  /** A read, or a deletion of the run's own uploads. */
  predicate Harmless(event: Event) {
    IsRead(event) || (event.Deleted? && event.undo)
  }

  ghost function Next(run: Run, w: Watch, event: Event): Watch {
    Watch(
      NextView(w.view, event),
      NextProgress(run, w.progress, event),
      w.failures + (if Succeeded(event) then 0 else 1),
      w.requests + (if IsRead(event) then 0 else 1),
      w.unbound || event.Unbound?,
      w.diverged || Mismatch(run, w, event))
  }

  // ---- what holds of the appliance at every step ----

  predicate Stored(name: string, files: set<string>) {
    name == "" || name in files
  }

  predicate EntryResolved(e: Entry, certificates: set<string>, keys: set<string>) {
    Stored(e.certificate, certificates) && Stored(e.key, keys) && Stored(e.chain, certificates)
  }

  predicate SlotResolved(slot: Slot, certificates: set<string>, keys: set<string>) {
    && (forall e :: e in slot.entries ==> EntryResolved(e, certificates, keys))
    && slot.certificateRefs <= certificates && slot.keyRefs <= keys
  }

  /** Every file named by any client-SSL or server-SSL template exists. */
  predicate Resolved(config: Config, certificates: set<string>, keys: set<string>) {
    && (forall name :: name in config.clients ==> SlotResolved(config.clients[name], certificates, keys))
    && (forall name :: name in config.servers ==>
          config.servers[name].certificateRefs <= certificates && config.servers[name].keyRefs <= keys)
  }

  ghost function EntriesAt(run: Run, world: World): seq<Entry>
    requires run.name in world.running.clients
  {
    world.running.clients[run.name].entries
  }

  /** Only the entries of one template differ from the start. */
  ghost predicate Frame(run: Run, world: World) {
    && run.name in run.start.running.clients && run.name in world.running.clients
    && world.running == WithSlot(run.start, run.name, EntriesAt(run, world)).running
  }

  /** Service continuity: the selected certificate or its replacement is bound,
      every other baseline entry stays bound, except that the desired entry takes
      the place of one with its name, and nothing else is bound. */
  predicate Serving(baseline: seq<Entry>, desired: Entry, current: Option<Entry>, entries: seq<Entry>) {
    && (current.Some? ==> current.value in entries || desired in entries)
    && (forall e :: e in baseline && Some(e) != current ==>
          e in entries || (e.certificate == desired.certificate && desired in entries))
    && (forall e :: e in entries ==> e in baseline || e == desired)
    && Unique(entries)
  }

  ghost predicate SafeWorld(run: Run, world: World) {
    && Frame(run, world)
    && Serving(EntriesAt(run, run.start), run.desired, run.current, EntriesAt(run, world))
    && Resolved(world.running, world.certificates, world.keys)
    && (run.guarded ==> Resolved(world.saved, world.certificates, world.keys))
  }

  /** An upload to a name that was taken when the run began. */
  predicate Overwrites(run: Run, event: Event) {
    || (event.UploadedKey? && event.name in run.start.keys)
    || (event.UploadedCertificate? && event.name in run.start.certificates)
  }

  // ---- the journal of a run ----

  /** Every call was justified by what was known before it and left the appliance
      safe; the knowledge starts empty and is passed from call to call. */
  ghost predicate Journal(run: Run, log: seq<Step>, watch: Watch, sole: bool) {
    && (log == [] ==> watch == Initial())
    && (forall i :: 0 <= i < |log| && i == 0 ==> log[i].before == Initial())
    && (forall i, j :: 0 <= i < |log| && 0 <= j < |log| && j == i + 1 ==> log[j].before == log[i].after)
    && (forall i :: 0 <= i < |log| && i + 1 == |log| ==> log[i].after == watch)
    && (forall i :: 0 <= i < |log| ==> StepSound(run, log[i], sole))
  }

  ghost predicate StepSound(run: Run, step: Step, sole: bool) {
    && step.after == Next(run, step.before, step.event)
    && Permitted(run, step.before.progress, step.before.view, step.event)
    && (step.before.diverged ==> Harmless(step.event))
    && (sole ==> SafeWorld(run, step.world) && !Overwrites(run, step.event))
  }

  /** The journal in a form that is unfolded only where it is asked for. */
  ghost predicate Journalled(run: Run, log: seq<Step>, watch: Watch, sole: bool) {
    forall l: seq<Step> {:trigger Journal(run, l, watch, sole)} :: l == log ==> Journal(run, l, watch, sole)
  }

  lemma JournalExtends(run: Run, log: seq<Step>, watch: Watch, sole: bool, event: Event, world: World)
    requires Journalled(run, log, watch, sole)
    requires Permitted(run, watch.progress, watch.view, event)
    requires watch.diverged ==> Harmless(event)
    requires sole ==> SafeWorld(run, world) && !Overwrites(run, event)
    ensures Journalled(run, log + [Step(event, world, watch, Next(run, watch, event))], Next(run, watch, event), sole)
  {
    assert Journal(run, log, watch, sole);
    var step := Step(event, world, watch, Next(run, watch, event));
    assert StepSound(run, step, sole);
  }
}
