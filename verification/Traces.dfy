/** What a valid journal says about the calls of a run, in terms of the calls
    alone. */
module Traces {
  import opened Wrappers
  import opened Templates
  import opened Revision
  import opened Contents
  import opened Monitor

  predicate ChangesBindings(event: Event) {
    event.Bound? || event.Unbound?
  }

  /** What was known before a call is what was known after the previous one. */
  lemma Linked(run: Run, log: seq<Step>, watch: Watch, sole: bool, i: nat)
    requires Journal(run, log, watch, sole) && i < |log|
    ensures i == 0 ==> log[i].before == Initial()
    ensures i > 0 ==> log[i].before == log[i - 1].after
    ensures log[i].after == Next(run, log[i].before, log[i].event)
    ensures Permitted(run, log[i].before.progress, log[i].before.view, log[i].event)
    ensures log[i].before.diverged ==> Harmless(log[i].event)
    ensures sole ==> !Overwrites(run, log[i].event)
  {
    assert StepSound(run, log[i], sole);
  }

  // ---- what the knowledge means ----

  /** A read that still counts was the call just before. */
  lemma JustRead(run: Run, log: seq<Step>, watch: Watch, sole: bool, i: nat, seen: Content)
    requires Journal(run, log, watch, sole) && i < |log| && log[i].before.view.read == Some(seen)
    ensures i > 0 && ReadShows(log[i - 1].event, run.name, seen)
  {
    Linked(run, log, watch, sole, i);
    if i > 0 {
      Linked(run, log, watch, sole, i - 1);
    }
  }

  /** Anything known was learned from the previous call or known before it. */
  lemma Learned(run: Run, log: seq<Step>, watch: Watch, sole: bool, i: nat)
    requires Journal(run, log, watch, sole) && i < |log| && log[i].before != Initial()
    ensures i > 0 && log[i].before == Next(run, log[i - 1].before, log[i - 1].event)
    ensures log[i - 1].event.ReadTemplate? ==> log[i - 1].event.template == run.name
  {
    Linked(run, log, watch, sole, i);
    if i > 0 {
      Linked(run, log, watch, sole, i - 1);
    }
  }

  /** Only a read settles the template, and a binding change unsettles it. */
  lemma SettledStep(before: View, event: Event, seen: Content)
    requires NextView(before, event).settled == Some(seen)
    ensures (event.ReadTemplate? && ReadShows(event, event.template, seen))
      || (before.settled == Some(seen) && !ChangesBindings(event))
  {
  }

  lemma ListsStep(before: View, event: Event)
    ensures var after := NextView(before, event).clients;
      after.None? || event == ListedClients(after) || (before.clients == after && !ChangesBindings(event))
    ensures var after := NextView(before, event).servers;
      after.None? || event == ListedServers(after) || (before.servers == after && !ChangesBindings(event))
  {
  }

  /** Only acknowledged uploads count, and only an accepted first save persists. */
  lemma ProgressStep(run: Run, before: Progress, event: Event)
    ensures forall name :: name in NextProgress(run, before, event).mineCertificates ==>
      name in before.mineCertificates || event == UploadedCertificate(name, true)
    ensures forall name :: name in NextProgress(run, before, event).mineKeys ==>
      name in before.mineKeys || event == UploadedKey(name, true)
    ensures NextProgress(run, before, event).save.Persisted? ==>
      before.save.Persisted? || (before.save.Untried? && event == Saved(true))
  {
  }

  /** The last template read showed this, and no binding change was sent since. */
  lemma {:induction false} SettledMeaning(run: Run, log: seq<Step>, watch: Watch, sole: bool, i: nat, seen: Content)
    returns (k: nat)
    requires Journal(run, log, watch, sole) && i < |log| && log[i].before.view.settled == Some(seen)
    ensures k < i && ReadShows(log[k].event, run.name, seen)
    ensures forall j :: k < j < i ==> !ChangesBindings(log[j].event)
  {
    Learned(run, log, watch, sole, i);
    SettledStep(log[i - 1].before.view, log[i - 1].event, seen);
    if ReadShows(log[i - 1].event, run.name, seen) {
      k := i - 1;
    } else {
      k := SettledMeaning(run, log, watch, sole, i - 1, seen);
    }
  }

  /** A certificate counts as uploaded only after an acknowledged upload. */
  lemma {:induction false} UploadedBefore(run: Run, log: seq<Step>, watch: Watch, sole: bool, i: nat, name: string)
    returns (k: nat)
    requires Journal(run, log, watch, sole) && i < |log| && name in log[i].before.progress.mineCertificates
    ensures k < i && log[k].event == UploadedCertificate(name, true)
  {
    Learned(run, log, watch, sole, i);
    ProgressStep(run, log[i - 1].before.progress, log[i - 1].event);
    if log[i - 1].event == UploadedCertificate(name, true) {
      k := i - 1;
    } else {
      k := UploadedBefore(run, log, watch, sole, i - 1, name);
    }
  }

  lemma {:induction false} KeyUploadedBefore(run: Run, log: seq<Step>, watch: Watch, sole: bool, i: nat, name: string)
    returns (k: nat)
    requires Journal(run, log, watch, sole) && i < |log| && name in log[i].before.progress.mineKeys
    ensures k < i && log[k].event == UploadedKey(name, true)
  {
    Learned(run, log, watch, sole, i);
    ProgressStep(run, log[i - 1].before.progress, log[i - 1].event);
    if log[i - 1].event == UploadedKey(name, true) {
      k := i - 1;
    } else {
      k := KeyUploadedBefore(run, log, watch, sole, i - 1, name);
    }
  }

  /** Once a state is observed that the run does not explain, that stays known. */
  lemma {:induction false} DivergedStays(run: Run, log: seq<Step>, watch: Watch, sole: bool, i: nat, j: nat)
    requires Journal(run, log, watch, sole) && i < j < |log| && log[i].after.diverged
    ensures log[j].before.diverged
  {
    Linked(run, log, watch, sole, j);
    if i < j - 1 {
      DivergedStays(run, log, watch, sole, i, j - 1);
      Linked(run, log, watch, sole, j - 1);
    }
  }

  /** While no bind of the desired entry is known, none was sent, and before a
      failed save no other bind was either. */
  lemma {:induction false} NoBindBefore(run: Run, log: seq<Step>, watch: Watch, sole: bool, i: nat, j: nat)
    requires Journal(run, log, watch, sole) && j < i < |log| && !log[i].before.progress.bound
      && log[i].before.progress.save.Untried?
    ensures !log[j].event.Bound?
  {
    Linked(run, log, watch, sole, i);
    Linked(run, log, watch, sole, i - 1);
    if j < i - 1 {
      NoBindBefore(run, log, watch, sole, i - 1, j);
    }
  }

  /** A configuration known as saved was saved by an accepted first save. */
  lemma {:induction false} PersistedBefore(run: Run, log: seq<Step>, watch: Watch, sole: bool, i: nat) returns (k: nat)
    requires Journal(run, log, watch, sole) && i < |log| && log[i].before.progress.save.Persisted?
    ensures k < i && log[k].event == Saved(true) && log[k].before.progress.save.Untried?
  {
    Learned(run, log, watch, sole, i);
    ProgressStep(run, log[i - 1].before.progress, log[i - 1].event);
    if log[i - 1].before.progress.save.Persisted? {
      k := PersistedBefore(run, log, watch, sole, i - 1);
    } else {
      k := i - 1;
    }
  }

  /** Listed templates were listed, with no binding change since. */
  lemma {:induction false} ClientsListed(run: Run, log: seq<Step>, watch: Watch, sole: bool, i: nat) returns (k: nat)
    requires Journal(run, log, watch, sole) && i < |log| && log[i].before.view.clients.Some?
    ensures k < i && log[k].event == ListedClients(log[i].before.view.clients)
    ensures forall j :: k < j < i ==> !ChangesBindings(log[j].event)
  {
    Learned(run, log, watch, sole, i);
    ListsStep(log[i - 1].before.view, log[i - 1].event);
    if log[i - 1].event.ListedClients? {
      k := i - 1;
    } else {
      k := ClientsListed(run, log, watch, sole, i - 1);
    }
  }

  lemma {:induction false} ServersListed(run: Run, log: seq<Step>, watch: Watch, sole: bool, i: nat) returns (k: nat)
    requires Journal(run, log, watch, sole) && i < |log| && log[i].before.view.servers.Some?
    ensures k < i && log[k].event == ListedServers(log[i].before.view.servers)
    ensures forall j :: k < j < i ==> !ChangesBindings(log[j].event)
  {
    Learned(run, log, watch, sole, i);
    ListsStep(log[i - 1].before.view, log[i - 1].event);
    if log[i - 1].event.ListedServers? {
      k := i - 1;
    } else {
      k := ServersListed(run, log, watch, sole, i - 1);
    }
  }

  /** Listed inventories were listed, with no deletion since. */
  lemma {:induction false} CertificatesListed(run: Run, log: seq<Step>, watch: Watch, sole: bool, i: nat)
    returns (k: nat)
    requires Journal(run, log, watch, sole) && i < |log| && log[i].before.view.certificates.Some?
    ensures k < i && log[k].event == ListedCertificates(log[i].before.view.certificates)
    ensures forall j :: k < j < i ==> !log[j].event.Deleted?
  {
    Learned(run, log, watch, sole, i);
    if log[i - 1].event.ListedCertificates? {
      k := i - 1;
    } else {
      k := CertificatesListed(run, log, watch, sole, i - 1);
    }
  }

  lemma {:induction false} KeysListed(run: Run, log: seq<Step>, watch: Watch, sole: bool, i: nat) returns (k: nat)
    requires Journal(run, log, watch, sole) && i < |log| && log[i].before.view.keys.Some?
    ensures k < i && log[k].event == ListedKeys(log[i].before.view.keys)
    ensures forall j :: k < j < i ==> !log[j].event.Deleted?
  {
    Learned(run, log, watch, sole, i);
    if log[i - 1].event.ListedKeys? {
      k := i - 1;
    } else {
      k := KeysListed(run, log, watch, sole, i - 1);
    }
  }

  lemma {:induction false} UntriedWithoutSave(run: Run, log: seq<Step>, watch: Watch, sole: bool, i: nat)
    requires Journal(run, log, watch, sole) && i < |log| && forall j :: 0 <= j < i ==> !log[j].event.Saved?
    ensures log[i].before.progress.save.Untried?
  {
    Linked(run, log, watch, sole, i);
    if i > 0 {
      UntriedWithoutSave(run, log, watch, sole, i - 1);
      Linked(run, log, watch, sole, i - 1);
    }
  }

  lemma {:induction false} DivergedUntried(run: Run, log: seq<Step>, watch: Watch, sole: bool, i: nat)
    requires Journal(run, log, watch, sole) && i < |log| && log[i].before.diverged
    ensures log[i].before.progress.save.Untried?
  {
    Learned(run, log, watch, sole, i);
    if log[i - 1].before.diverged {
      DivergedUntried(run, log, watch, sole, i - 1);
    }
  }

  // ---- fail closed ----

  /** Under any interference, the bind, the removal of the old entry and the first
      save each directly follow a read that showed exactly the expected state. */
  lemma ForwardChangesFollowReads(run: Run, log: seq<Step>, watch: Watch, sole: bool, i: nat)
    requires Journal(run, log, watch, sole) && i < |log| && forall j :: 0 <= j < i ==> !log[j].event.Saved?
    ensures log[i].event.Bound? ==>
      i > 0 && log[i].event.entry == run.desired && ReadShows(log[i - 1].event, run.name, run.baseline)
    ensures log[i].event.Unbound? ==>
      && i > 0 && Replaces(run.current, run.desired) && log[i].event.certificate == run.current.value.certificate
      && ReadShows(log[i - 1].event, run.name, run.added)
    ensures log[i].event.Saved? ==> i > 0 && ReadShows(log[i - 1].event, run.name, run.goal)
  {
    Linked(run, log, watch, sole, i);
    UntriedWithoutSave(run, log, watch, sole, i);
    if log[i].event.Bound? {
      JustRead(run, log, watch, sole, i, run.baseline);
    } else if log[i].event.Unbound? {
      JustRead(run, log, watch, sole, i, run.added);
    } else if log[i].event.Saved? {
      JustRead(run, log, watch, sole, i, run.goal);
    }
  }

  /** After the first state the run does not explain, only reads follow and, if no
      bind was sent, deletions. */
  lemma StopsAfterMismatch(run: Run, log: seq<Step>, watch: Watch, sole: bool, i: nat, j: nat)
    requires Journal(run, log, watch, sole) && i < j < |log| && Mismatch(run, log[i].before, log[i].event)
    ensures Harmless(log[j].event)
    ensures log[j].event.Deleted? ==> forall k :: 0 <= k < j ==> !log[k].event.Bound?
  {
    Linked(run, log, watch, sole, i);
    DivergedStays(run, log, watch, sole, i, j);
    DivergedUntried(run, log, watch, sole, j);
    Linked(run, log, watch, sole, j);
    if log[j].event.Deleted? {
      forall k | 0 <= k < j ensures !log[k].event.Bound? {
        NoBindBefore(run, log, watch, sole, j, k);
      }
    }
  }

  // ---- deletions ----

  /** Compensation deletes only what this run uploaded. */
  lemma UndoDeletesOwnUploads(run: Run, log: seq<Step>, watch: Watch, sole: bool, i: nat)
    requires Journal(run, log, watch, sole) && i < |log| && log[i].event.Deleted? && log[i].event.undo
    ensures log[i].event.certificate != "" ==>
      exists j :: 0 <= j < i && log[j].event == UploadedCertificate(log[i].event.certificate, true)
    ensures log[i].event.key != "" ==> exists j :: 0 <= j < i && log[j].event == UploadedKey(log[i].event.key, true)
  {
    Linked(run, log, watch, sole, i);
    if log[i].event.certificate != "" {
      var j := UploadedBefore(run, log, watch, sole, i, log[i].event.certificate);
    }
    if log[i].event.key != "" {
      var j := KeyUploadedBefore(run, log, watch, sole, i, log[i].event.key);
    }
  }

  /** A deletion of replaced files follows complete listings of both kinds of
      templates, neither of which contains a deleted name, with no binding change
      in between. */
  lemma PurgeFollowsListings(run: Run, log: seq<Step>, watch: Watch, sole: bool, i: nat)
    returns (a: nat, clients: seq<ClientTemplate>, b: nat, servers: seq<ServerTemplate>)
    requires Journal(run, log, watch, sole) && i < |log| && log[i].event.Deleted? && !log[i].event.undo
    requires log[i].event.certificate != "" || log[i].event.key != ""
    ensures a < i && log[a].event == ListedClients(Some(clients))
      && forall j :: a < j < i ==> !ChangesBindings(log[j].event)
    ensures b < i && log[b].event == ListedServers(Some(servers))
      && forall j :: b < j < i ==> !ChangesBindings(log[j].event)
    ensures forall name :: name in {log[i].event.certificate, log[i].event.key} && name != "" ==>
      !ClientsMention(clients, name) && !ServersMention(servers, name)
  {
    Linked(run, log, watch, sole, i);
    var v := log[i].before.view;
    clients, servers := v.clients.value, v.servers.value;
    a := ClientsListed(run, log, watch, sole, i);
    b := ServersListed(run, log, watch, sole, i);
  }

  /** Replaced files go only after the goal was read and saved, unless saving is
      switched off. */
  lemma PurgeFollowsSave(run: Run, log: seq<Step>, watch: Watch, sole: bool, i: nat) returns (k: nat)
    requires Journal(run, log, watch, sole) && i < |log| && log[i].event.Deleted? && !log[i].event.undo && !run.noWrite
    ensures 0 < k < i && log[k].event == Saved(true) && ReadShows(log[k - 1].event, run.name, run.goal)
  {
    Linked(run, log, watch, sole, i);
    k := PersistedBefore(run, log, watch, sole, i);
    Linked(run, log, watch, sole, k);
    JustRead(run, log, watch, sole, k, run.goal);
  }

  // ---- rollback ----

  lemma {:induction false} UploadKnown(run: Run, log: seq<Step>, watch: Watch, sole: bool, j: nat, i: nat, name: string)
    requires Journal(run, log, watch, sole) && j < i < |log|
    ensures log[j].event == UploadedCertificate(name, true) ==> name in log[i].before.progress.mineCertificates
    ensures log[j].event == UploadedKey(name, true) ==> name in log[i].before.progress.mineKeys
  {
    Linked(run, log, watch, sole, i);
    Linked(run, log, watch, sole, i - 1);
    if j < i - 1 {
      UploadKnown(run, log, watch, sole, j, i - 1, name);
    }
  }

  /** A configuration is saved after a failed save only when the baseline was read
      after the last binding change, and inventories read after the last deletion
      list none of the files uploaded so far. */
  lemma RollbackSaveFollowsRestoration(run: Run, log: seq<Step>, watch: Watch, sole: bool, i: nat)
    returns (k: nat, a: nat, certificates: seq<string>, b: nat, keys: seq<string>)
    requires Journal(run, log, watch, sole) && i < |log| && log[i].event.Saved? && log[i].before.progress.save.Failed?
    ensures k < i && ReadShows(log[k].event, run.name, run.baseline)
      && forall j :: k < j < i ==> !ChangesBindings(log[j].event)
    ensures a < i && log[a].event == ListedCertificates(Some(certificates))
      && forall j :: a < j < i ==> !log[j].event.Deleted?
    ensures b < i && log[b].event == ListedKeys(Some(keys)) && forall j :: b < j < i ==> !log[j].event.Deleted?
    ensures forall j, name :: 0 <= j < i && log[j].event == UploadedCertificate(name, true) ==> name !in certificates
    ensures forall j, name :: 0 <= j < i && log[j].event == UploadedKey(name, true) ==> name !in keys
  {
    Linked(run, log, watch, sole, i);
    k := SettledMeaning(run, log, watch, sole, i, run.baseline);
    a := CertificatesListed(run, log, watch, sole, i);
    b := KeysListed(run, log, watch, sole, i);
    certificates, keys := log[i].before.view.certificates.value, log[i].before.view.keys.value;
    forall j, name | 0 <= j < i
      ensures log[j].event == UploadedCertificate(name, true) ==> name !in certificates
      ensures log[j].event == UploadedKey(name, true) ==> name !in keys
    {
      UploadKnown(run, log, watch, sole, j, i, name);
    }
  }

  // ---- the appliance of a sole writer ----

  /** After every call every file that a client-SSL or server-SSL template names
      exists; where the saved configuration can be guarded, so does every file that
      a saved template names. */
  ghost predicate AlwaysResolved(run: Run, log: seq<Step>) {
    forall i :: 0 <= i < |log| ==>
      && Resolved(log[i].world.running, log[i].world.certificates, log[i].world.keys)
      && (run.guarded ==> Resolved(log[i].world.saved, log[i].world.certificates, log[i].world.keys))
  }

  /** After every call, rollback included, the template binds the old or the
      desired entry and every unselected one, except that the desired entry takes
      the place of one with its name, and nothing else; no other template has
      changed. */
  ghost predicate AlwaysServing(run: Run, log: seq<Step>) {
    forall i :: 0 <= i < |log| ==>
      && Frame(run, log[i].world)
      && Serving(EntriesAt(run, run.start), run.desired, run.current, EntriesAt(run, log[i].world))
  }

  /** No upload goes to a name that was taken when the run began. */
  ghost predicate NeverOverwrites(run: Run, log: seq<Step>) {
    forall i :: 0 <= i < |log| ==> !Overwrites(run, log[i].event)
  }

  lemma ReferencesAlwaysResolved(run: Run, log: seq<Step>, watch: Watch)
    requires Journal(run, log, watch, true)
    ensures AlwaysResolved(run, log)
  {
    forall i | 0 <= i < |log| ensures SafeWorld(run, log[i].world) {
      assert StepSound(run, log[i], true);
    }
  }

  lemma ServiceContinues(run: Run, log: seq<Step>, watch: Watch)
    requires Journal(run, log, watch, true)
    ensures AlwaysServing(run, log)
  {
    forall i | 0 <= i < |log| ensures SafeWorld(run, log[i].world) {
      assert StepSound(run, log[i], true);
    }
  }

  lemma UploadsAreNew(run: Run, log: seq<Step>, watch: Watch)
    requires Journal(run, log, watch, true)
    ensures NeverOverwrites(run, log)
  {
    forall i | 0 <= i < |log| ensures !Overwrites(run, log[i].event) {
      assert StepSound(run, log[i], true);
    }
  }

  // ---- runs that change nothing ----

  /** The desired entry is bound, with its files, and none is to be replaced. */
  predicate NothingToDo(run: Run) {
    && run.desired in run.baseline.bindings && !Replaces(run.current, run.desired)
    && run.desired.certificate != "" && run.desired.key != ""
    && EntryResolved(run.desired, run.start.certificates, run.start.keys)
  }

  /** Such a run of a sole writer sends only reads, whichever of them fail. */
  lemma {:induction false} OnlyReads(run: Run, log: seq<Step>, watch: Watch, i: nat)
    requires Journal(run, log, watch, true) && NothingToDo(run) && i < |log|
    ensures IsRead(log[i].event)
    ensures log[i].after.progress == NOTHING_SENT && log[i].after.requests == 0
  {
    Linked(run, log, watch, true, i);
    if i > 0 {
      OnlyReads(run, log, watch, i - 1);
    }
    NothingPermitted(run, log[i].before.view, log[i].event);
  }

  lemma NothingPermitted(run: Run, v: View, event: Event)
    requires NothingToDo(run) && Permitted(run, NOTHING_SENT, v, event) && !Overwrites(run, event)
    ensures IsRead(event)
  {
  }

  lemma NothingRequested(run: Run, log: seq<Step>, watch: Watch)
    requires Journal(run, log, watch, true) && NothingToDo(run)
    ensures watch.progress == NOTHING_SENT && watch.requests == 0
    ensures forall i :: 0 <= i < |log| ==> IsRead(log[i].event)
  {
    forall i | 0 <= i < |log| ensures IsRead(log[i].event) {
      OnlyReads(run, log, watch, i);
    }
    if log != [] {
      OnlyReads(run, log, watch, |log| - 1);
    }
  }

  // ---- the last call ----

  /** A read that still counts at the end was the last call. */
  lemma LastRead(run: Run, log: seq<Step>, watch: Watch, sole: bool, seen: Content)
    requires Journal(run, log, watch, sole) && watch.view.read == Some(seen)
    ensures log != [] && ReadShows(log[|log| - 1].event, run.name, seen)
  {
    if log != [] {
      Linked(run, log, watch, sole, |log| - 1);
    }
  }

  /** What the final knowledge says was read, and still stands, was read by the last
      successful template read, with no binding change after it. */
  lemma LastSettled(run: Run, log: seq<Step>, watch: Watch, sole: bool, seen: Content) returns (k: nat)
    requires Journal(run, log, watch, sole) && watch.view.settled == Some(seen)
    ensures k < |log| && ReadShows(log[k].event, run.name, seen)
    ensures forall j :: k < j < |log| ==> !ChangesBindings(log[j].event)
  {
    var last := |log| - 1;
    Linked(run, log, watch, sole, last);
    if log[last].event.ReadTemplate? && log[last].event.response.Some? {
      k := last;
    } else {
      k := SettledMeaning(run, log, watch, sole, last, seen);
    }
  }
}
